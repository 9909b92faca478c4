/** What the store records of every execution, in every run: the outcome of one that completed, and the mark left on
    one that a crash interrupted (internal/probe/engine.go, internal/probe/state.go). */
module ProbeRecords {
  import opened Core
  import opened Tables
  import opened Protocol
  import opened Ledgers
  import opened Trust
  import opened ProbeState
  import opened ProbeInvariants
  import opened ProbeRuns
  import opened ProbeTheorems

  /** The row once it holds the canonical bytes of a result, otherwise as it was. */
  function Holding(row: Row, r: TaskResult): Row {
    var text := ResultText(r, "");
    row.(state := r.status, result := Some(text), resultDigest := Some(Sha256(text)))
  }

  /** The log with the event that ends an execution in place of its reserved slot. */
  function Closed(l: Ledger<Event>, kind: Kind, row: Row, r: TaskResult): Ledger<Event> {
    Ledger(l.events + [Event(kind, row.request, r.code, Some(row.payloadDigest), Some(Sha256(ResultText(r, ""))))],
        l.reserved - 1)
  }

  // ---- Executions that complete ----

  /** The execution in progress is not abandoned and the worker does not crash. */
  ghost predicate Uninterrupted(w: World, steps: seq<Step>) {
    After(w, steps).flight.Some? && (steps == [] || Uninterrupted(w, steps[..|steps| - 1]))
  }

  /** While the collector works, nothing changes the execution in progress. */
  lemma FlightStays(w: World, step: Step)
    requires Good(w) && w.flight.Some? && !w.flight.value.phase.Admitted? && Apply(w, step).flight.Some?
    ensures Apply(w, step).flight == w.flight
  {
    hide Prepare, Ready, Recover, Finish, MigrateTrust, Acknowledge, RejectInvalid, Check, FlightResult;
    match step
    case Receive(e, p, verifiedAt, nowMs, checkedAt) =>
      var v := Check(e, w.worker.value, verifiedAt);
      if ForNode(w.state, v) && p.Some? {
        NothingElseRuns(w, w.worker.value, v.value.task, v.value.payload, p.value, nowMs, v.value.keyId, checkedAt);
      }
    case _ =>
  }

  lemma NothingElseRuns(
      w: World, v: Binding, t: Task, payload: Payload, p: Policy, nowMs: int64, keyId: KeyId, checkedAt: int64)
    requires Good(w) && w.flight.Some? && DecodeTask(payload) == Some(t)
    ensures var r := Prepare(w.state, v, t, payload, p, nowMs, keyId, checkedAt).result;
            r.Ok? ==> r.value.Answer?
  {
    hide Prepare, Inv, ValidPolicy, Decided, Evolves, RatesOk, CountsAgree, RepliesOk, EnteredOk;
    PrepareEffect(w.state, v, t, payload, p, nowMs, keyId, checkedAt);
    var row :| row in w.state.rows && FlightRow(w.flight.value, row);
  }

  lemma {:induction false} FlightStaysAlong(w: World, steps: seq<Step>)
    requires Good(w) && w.flight.Some? && !w.flight.value.phase.Admitted? && Uninterrupted(w, steps)
    ensures Good(After(w, steps)) && After(w, steps).flight == w.flight
  {
    hide Good, Apply;
    if steps != [] {
      var n := |steps| - 1;
      FlightStaysAlong(w, steps[..n]);
      FlightStays(After(w, steps[..n]), steps[n]);
      ApplyKeepsGood(After(w, steps[..n]), steps[n]);
    }
  }

  /** What completing an execution leaves: its row holds a result that says what happened, every other row is as it
      was, and the same bytes are answered. */
  ghost predicate Recorded(w: World, w': World, f: Flight, late: bool, outcome: Outcome, ended: int64) {
    exists i: nat, r: TaskResult ::
      && i < |w.state.rows| && FlightRow(f, w.state.rows[i])
      && RecordsOutcome(f.task, f.policy, f.startedAt, late, outcome, ended, r)
      && w'.replies == w.replies + [Reply(f.task.request, ResultText(r, ""))]
      && w'.flight.None? && w'.state.rows == w.state.rows[i := Holding(w.state.rows[i], r)]
      && w'.state.audit == Closed(w.state.audit, TaskCompleted, w.state.rows[i], r)
  }

  lemma CompleteRecords(w: World, outcome: Outcome, now: int64)
    requires Good(w) && w.flight.Some? && !w.flight.value.phase.Admitted?
    ensures Recorded(w, Apply(w, Complete(outcome, now)), w.flight.value, w.flight.value.phase.TooLate?, outcome, now)
  {
    hide RepliesOk, EnteredOk, RatesOk, CountsAgree, Apply, FlightResult, Inv, ValidPolicy, Recorded;
    var f, s := w.flight.value, w.state;
    var row :| row in s.rows && FlightRow(f, row);
    var i :| 0 <= i < |s.rows| && s.rows[i] == row;
    InvRow(s, row);
    FlightFits(s.node, row, f, outcome, now);
    hide RowOk, DecodeTask, EncodedSize, ValidResult, CheckAssignment, RecordsOutcome, FinishTx;
    FinishKeepsInv(s, i, FlightResult(f, outcome, now), TaskCompleted);
    CompleteIs(w, i, outcome, now);
  }

  lemma FlightFits(node: Node, row: Row, f: Flight, outcome: Outcome, now: int64)
    requires RowOk(node, row) && FlightRow(f, row) && ValidPolicy(f.policy)
    ensures var r := FlightResult(f, outcome, now);
            && ValidResult(r) && CheckAssignment(r, f.task) && r.policyDigest == row.policyDigest
            && EncodedSize(r) <= MAX_STORED_RESULT
            && RecordsOutcome(f.task, f.policy, f.startedAt, f.phase.TooLate?, outcome, now, r)
  {
    hide ValidResult, CheckAssignment, EncodedSize, CompletedOk, Normalise;
    NormalisedResultFits(f.task, f.startedAt, f.phase.TooLate?, outcome, now, f.policy);
  }

  lemma CompleteIs(w: World, i: nat, outcome: Outcome, now: int64)
    requires w.flight.Some? && !w.flight.value.phase.Admitted? && i < |w.state.rows|
    requires var f, r := w.flight.value, FlightResult(w.flight.value, outcome, now);
             && FlightRow(f, w.state.rows[i]) && FinishTx(w.state, f.task, r, TaskCompleted).Ok?
             && FinishTx(w.state, f.task, r, TaskCompleted).value.rows
                == w.state.rows[i := FinishedRow(w.state.rows[i], r)]
             && FinishTx(w.state, f.task, r, TaskCompleted).value.audit
                == Closed(w.state.audit, TaskCompleted, w.state.rows[i], r)
             && RecordsOutcome(f.task, f.policy, f.startedAt, f.phase.TooLate?, outcome, now, r)
    ensures Recorded(w, Apply(w, Complete(outcome, now)), w.flight.value, w.flight.value.phase.TooLate?, outcome, now)
  {
    hide FlightResult, FinishTx, RecordsOutcome, FlightRow;
    var r := FlightResult(w.flight.value, outcome, now);
    assert FinishedRow(w.state.rows[i], r) == Holding(w.state.rows[i], r);
  }

  /** In every run, whatever happens between the moment an admitted execution begins and the moment it ends, unless it
      is interrupted: the row and the answer say succeeded, with exactly the collected bytes, if and only if the
      collector started in time, returned a report that answers the task, and that success fits the policy's limit;
      and each of the four other endings is recorded exactly when it happened. */
  lemma OutcomesAreRecorded(
      node: Node, binding: Binding, now: int64, steps: seq<Step>, began: int64, during: seq<Step>, outcome: Outcome,
      ended: int64)
    requires var w0 := After(Start(node, binding, now), steps);
             && w0.flight.Some? && w0.flight.value.phase.Admitted?
             && Uninterrupted(Apply(w0, Begin(began)), during)
    ensures var w0 := After(Start(node, binding, now), steps);
            var f := w0.flight.value;
            var w := After(Apply(w0, Begin(began)), during);
            var late := began >= f.task.expiresAt;
            && w.flight.Some?
            && Recorded(w, Apply(w, Complete(outcome, ended)), w.flight.value, late, outcome, ended)
            && w.flight.value.(phase := Admitted) == f
  {
    RunIsGood(node, binding, now, steps);
    var w0 := After(Start(node, binding, now), steps);
    hide Good, After, Start, Recorded, Uninterrupted;
    ApplyKeepsGood(w0, Begin(began));
    var w1 := Apply(w0, Begin(began));
    hide Apply;
    FlightStaysAlong(w1, during);
    CompleteRecords(After(w1, during), outcome, ended);
  }

  // ---- Executions that a crash interrupted ----

  /** Opening marks exactly the running rows as indeterminate, with the time they started and the policy they ran
      under, and leaves every other row as it was. */
  predicate Marked(row: Row, row': Row, now: int64) {
    if row.state.Running? then
      DecodeTask(row.payload).Some?
        && var t := DecodeTask(row.payload).value;
           var end := if now < row.startedAt then row.startedAt else now;
           row' == Holding(row, TaskResult(t.request, t.agent, t.epoch, t.kind, row.startedAt, end, Indeterminate,
               EmptyObject, RecoveredAfterRestart, row.policyDigest))
    else row' == row
  }

  predicate AllMarked(s: State, s': State, now: int64) {
    && |s'.rows| == |s.rows| && (forall i :: 0 <= i < |s.rows| ==> Marked(s.rows[i], s'.rows[i], now))
    && (forall i :: 0 <= i < |s.rows| && s.rows[i].state.Running? ==>
          && s'.rows[i].result.Some? && s'.rows[i].result.value.ResultText?
          && s'.audit == Closed(s.audit, TaskRecovered, s.rows[i], s'.rows[i].result.value.result))
    && ((forall i :: 0 <= i < |s.rows| ==> !s.rows[i].state.Running?) ==> s'.audit == s.audit)
  }

  lemma OnlyOneRuns(s: State, i: nat)
    requires Inv(s) && i < |s.rows| && s.rows[i].state.Running?
    ensures forall j :: 0 <= j < |s.rows| && j != i ==> !s.rows[j].state.Running?
  {
    hide RowOk, Decided, DistinctIds, UniqueDecisions;
    forall j | 0 <= j < |s.rows| && j != i ensures !s.rows[j].state.Running? {
      if s.rows[j].state.Running? {
        var rest := s.rows[i := s.rows[i].(state := Failed)];
        SumUpdate(s.rows, i, rest[i], RunningWeight());
        SumPositive(rest, j, RunningWeight());
      }
    }
  }

  lemma RecoverMarks(s: State, node: Node, v: Binding, now: int64)
    requires Inv(s) && Recover(s, node, v, now).result.Ok?
    ensures AllMarked(s, Recover(s, node, v, now).state, now)
  {
    hide Inv;
    RecoverAccepts(s, node, v, now);
    ClockKeepsInv(s, now);
    var s1 := Clock(s, now).state;
    if FindRunning(s1.rows).Some? {
      RecoverShape(s, s1, node, v, now);
      var i := FindRunning(s1.rows).value;
      assert s1.rows[i] in s1.rows;
      InvRow(s1, s1.rows[i]);
      OnlyOneRuns(s1, i);
      InterruptedResultOk(s1.node, s1.rows[i], now);
      var t := DecodeTask(s1.rows[i].payload).value;
      var r := InterruptedResult(t, s1.rows[i], now);
      hide Recover, Clock, RowOk, FinishTx, DecodeTask;
      FinishKeepsInv(s1, i, r, TaskRecovered);
    } else {
      hide Clock, Matches, Sound, Sum;
    }
  }

  /** In every run, a worker that opens the store finds what a crash interrupted recorded as indeterminate, and nothing
      else changed. */
  lemma InterruptionsAreRecorded(
      node: Node, binding: Binding, now: int64, steps: seq<Step>, again: Node, verifier: Binding, later: int64)
    requires After(Start(node, binding, now), steps).worker.None?
    ensures var w := After(Start(node, binding, now), steps);
            var w' := Apply(w, Open(again, verifier, later));
            w'.worker.Some? ==> AllMarked(w.state, w'.state, later)
  {
    RunIsGood(node, binding, now, steps);
    var w := After(Start(node, binding, now), steps);
    assert Inv(w.state);
    hide Good, After, Start, Inv, Recover, Marked;
    if Recover(w.state, again, verifier, later).result.Ok? {
      RecoverMarks(w.state, again, verifier, later);
    }
  }
}
