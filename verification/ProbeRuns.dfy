/** Runs of a probe worker over its store: any interleaving of envelopes, collector outcomes, acknowledgments,
    crashes, restarts and trust migrations, with any clock and any policy (internal/probe/engine.go). */
module ProbeRuns {
  import opened Core
  import opened Tables
  import opened Protocol
  import opened Ledgers
  import opened Trust
  import opened Envelope
  import opened ProbeState
  import opened ProbeInvariants

  datatype Phase = Admitted | Collecting | TooLate

  /** The volatile part of one execution, lost in a crash. */
  datatype Flight = Flight(task: Task, startedAt: int64, policy: Policy, phase: Phase)

  datatype Reply = Reply(request: string, text: ResultText)

  datatype Admission = Admission(request: string, atMs: int64, policy: Policy)

  /** The store, the open worker if there is one, and three records of what has happened so far:
      requests for which the collector was entered, answers returned, and executions admitted. */
  datatype World = World(
    state: State, worker: Option<Binding>, flight: Option<Flight>,
    entered: seq<string>, replies: seq<Reply>, admissions: seq<Admission>)

  datatype Step =
    | Open(node: Node, verifier: Binding, now: int64)
    | Crash
    | CheckReady(policy: Policy, now: int64)
    | Receive(envelope: Envelope, loaded: Option<Policy>, verifiedAt: int64, nowMs: int64, checkedAt: int64)
    | Begin(now: int64)
    | Complete(outcome: Outcome, now: int64)
    | Abandon
    | Deliver(request: string, digest: Sha256<ResultText>)
    | Migrate(node: Node, legacy: PublicKey, previous: Option<TrustSet>, next: TrustSet, now: int64)

  /** The verification at the head of Engine.Process. */
  function Check(e: Envelope, verifier: Binding, now: int64): (v: Option<Verified>)
    ensures v.Some? ==>
              DecodeTask(v.value.payload) == Some(v.value.task) && !e.Unparsed? && v.value.payload == e.payload
  {
    match verifier
    case Pinned(key) =>
      (match VerifyPayload(e, key)
       case None => None
       case Some(t) => Some(Verified(t, e.payload, Sha256(key))))
    case Installed(trust) => VerifyTrusted(e, trust, now)
  }

  predicate ForNode(s: State, v: Option<Verified>) {
    v.Some? && v.value.task.agent == s.node.agent && v.value.task.epoch == s.node.epoch
  }

  function Received(w: World, v: Verified, p: Policy, nowMs: int64, checkedAt: int64): World
    requires w.worker.Some?
  {
    var tx := Prepare(w.state, w.worker.value, v.task, v.payload, p, nowMs, v.keyId, checkedAt);
    match tx.result
    case Ok(Run(_, startedAt)) =>
      w.(state := tx.state, flight := Some(Flight(v.task, startedAt, p, Admitted)),
         admissions := w.admissions + [Admission(v.task.request, nowMs, p)])
    case Ok(Answer(text)) => w.(state := tx.state, replies := w.replies + [Reply(v.task.request, text)])
    case Err(_) => w.(state := tx.state)
  }

  function FlightResult(f: Flight, outcome: Outcome, now: int64): TaskResult {
    Normalise(f.task, f.policy.digest, f.startedAt, f.phase.TooLate?, outcome, now, f.policy)
  }

  /** One step; a step that is not possible in a world leaves it unchanged. */
  function Apply(w: World, step: Step): World {
    match step
    case Open(node, verifier, now) =>
      if w.worker.Some? then w
      else
        var tx := Recover(w.state, node, verifier, now);
        w.(state := tx.state, worker := if tx.result.Ok? then Some(verifier) else None)
    case Crash => w.(worker := None, flight := None)
    case CheckReady(p, now) => if w.worker.None? then w else w.(state := Ready(w.state, w.worker.value, p, now).state)
    case Receive(e, p, verifiedAt, nowMs, checkedAt) =>
      if w.worker.None? then w
      else
        var v := Check(e, w.worker.value, verifiedAt);
        if !ForNode(w.state, v) then w.(state := RejectInvalid(w.state).state)
        else if p.None? then w
        else Received(w, v.value, p.value, nowMs, checkedAt)
    case Begin(now) =>
      if w.flight.None? || !w.flight.value.phase.Admitted? then w
      else if now >= w.flight.value.task.expiresAt then w.(flight := Some(w.flight.value.(phase := TooLate)))
      else w.(flight := Some(w.flight.value.(phase := Collecting)),
          entered := w.entered + [w.flight.value.task.request])
    case Complete(outcome, now) =>
      if w.flight.None? || w.flight.value.phase.Admitted? then w
      else
        var f := w.flight.value;
        var tx := Finish(w.state, f.task, FlightResult(f, outcome, now));
        w.(state := tx.state, flight := None,
           replies := if tx.result.Ok? then w.replies + [Reply(f.task.request, tx.result.value)] else w.replies)
    case Abandon => w.(flight := None)
    case Deliver(request, digest) =>
      if w.worker.None? then w else w.(state := Acknowledge(w.state, request, digest).state)
    case Migrate(node, legacy, previous, next, now) =>
      if w.worker.Some? then w else w.(state := MigrateTrust(w.state, node, legacy, previous, next, now).state)
  }

  function Start(node: Node, binding: Binding, now: int64): World {
    World(Initialize(node, binding, now), None, None, [], [], [])
  }

  function After(w: World, steps: seq<Step>): World {
    if steps == [] then w else Apply(After(w, steps[..|steps| - 1]), steps[|steps| - 1])
  }

  // ---- What every transaction does to the rows ----

  ghost predicate Continues(s: State, r': Row) {
    exists r :: r in s.rows && r.request == r'.request && (r.result.Some? ==> r'.result == r.result)
  }

  /** Every row afterwards continues a row from before, or belongs to a request never decided before. */
  ghost predicate Evolves(s: State, s': State) {
    && Remembers(s.audit, s'.audit)
    && forall r' :: r' in s'.rows ==> Continues(s, r') || !Decided(s.audit, r'.request)
  }

  ghost predicate RunningKept(s: State, s': State) {
    forall r :: r in s.rows && r.state.Running? ==> r in s'.rows
  }

  /** Start of the retained period: rows accepted later than this are never pruned. */
  function Horizon(s: State): int {
    (s.clockHigh - RETENTION) * 1000
  }

  ghost predicate SameCounts(s: State, s': State) {
    forall ms: int {:trigger ExecutedAfter(ms)} ::
      ms >= Horizon(s') ==> Sum(s'.rows, ExecutedAfter(ms)) == Sum(s.rows, ExecutedAfter(ms))
  }

  /** The common effect of all transactions that admit nothing. */
  ghost predicate Progress(s: State, s': State) {
    Inv(s') && Evolves(s, s') && s'.clockHigh >= s.clockHigh && s'.node == s.node && SameCounts(s, s')
  }

  lemma SameRowsProgress(s: State, s': State)
    requires Inv(s) && Inv(s') && s'.rows == s.rows && Remembers(s.audit, s'.audit)
    requires s'.clockHigh >= s.clockHigh && s'.node == s.node
    ensures Progress(s, s') && RunningKept(s, s')
  {
    hide Inv;
    forall r' | r' in s'.rows ensures Continues(s, r') {
      assert r' in s.rows;
    }
  }

  lemma PruneKeepsCounts(s: State, now: int64, ms: int)
    requires Inv(s) && now <= s.clockHigh && ms >= Horizon(s)
    ensures Sum(Prune(s.rows, now), ExecutedAfter(ms)) == Sum(s.rows, ExecutedAfter(ms))
  {
    forall r | r in s.rows && Expendable(r, now) ensures ExecutedAfter(ms)(r) == 0 {
      assert RowOk(s.node, r);
    }
    SumPrune(s.rows, now, ExecutedAfter(ms));
  }

  lemma PrunedProgress(s: State, s': State, now: int64)
    requires Inv(s) && Inv(s') && s'.rows == Prune(s.rows, now) && Remembers(s.audit, s'.audit)
    requires now <= s'.clockHigh && s'.clockHigh >= s.clockHigh && s'.node == s.node
    ensures Progress(s, s') && RunningKept(s, s')
  {
    forall r' | r' in s'.rows ensures Continues(s, r') {
      assert r' in s.rows;
    }
    forall ms: int | ms >= Horizon(s') ensures Sum(s'.rows, ExecutedAfter(ms)) == Sum(s.rows, ExecutedAfter(ms)) {
      NoteHigh(s, s'.clockHigh);
      PruneKeepsCounts(s.(clockHigh := s'.clockHigh), now, ms);
    }
    hide Inv;
  }

  lemma NoteHigh(s: State, high: int64)
    requires Inv(s)
    ensures Inv(s.(clockHigh := high))
  {
  }

  lemma ReadyProgress(s: State, v: Binding, p: Policy, now: int64)
    requires Inv(s)
    ensures Progress(s, Ready(s, v, p, now).state) && RunningKept(s, Ready(s, v, p, now).state)
  {
    hide Inv, Clock, UsePolicy, Capacity, ValidPolicy;
    ReadyKeepsInv(s, v, p, now);
    var s' := Ready(s, v, p, now).state;
    if s' == s || Clock(s, now).ClockStops? {
      if s' != s { ClockKeepsInv(s, now); }
      SameRowsProgress(s, s');
    } else {
      ClockKeepsInv(s, now);
      var s1 := Clock(s, now).state;
      PolicyKeepsInv(s1, p.digest);
      CapacityKeepsInv(UsePolicy(s1, p.digest).value, p, now);
      CapacityKeepsClock(UsePolicy(s1, p.digest).value, p, now);
      PrunedProgress(s, s', now);
    }
  }

  lemma CapacityKeepsClock(s: State, p: Policy, now: int64)
    requires Capacity(s, p, now).Ok?
    ensures Capacity(s, p, now).value.clockHigh == s.clockHigh && Capacity(s, p, now).value.binding == s.binding
  {
  }

  lemma UpdateProgress(s: State, s': State, i: nat, row: Row)
    requires Inv(s) && Inv(s') && i < |s.rows| && s'.rows == s.rows[i := row] && Remembers(s.audit, s'.audit)
    requires s'.clockHigh == s.clockHigh && s'.node == s.node
    requires row.request == s.rows[i].request && row.executed == s.rows[i].executed
             && row.acceptedMs == s.rows[i].acceptedMs
    requires s.rows[i].result.Some? ==> row.result == s.rows[i].result
    ensures Progress(s, s')
    ensures !s.rows[i].state.Running? ==> RunningKept(s, s')
  {
    hide Inv;
    forall r' | r' in s'.rows ensures Continues(s, r') {
      if r' == row { assert s.rows[i] in s.rows; } else { assert r' in s.rows; }
    }
    forall ms: int | ms >= Horizon(s') ensures Sum(s'.rows, ExecutedAfter(ms)) == Sum(s.rows, ExecutedAfter(ms)) {
      SumUpdate(s.rows, i, row, ExecutedAfter(ms));
    }
    forall r | r in s.rows && r.state.Running? && !s.rows[i].state.Running? ensures r in s'.rows {
      var j :| 0 <= j < |s.rows| && s.rows[j] == r;
      assert s'.rows[j] == r;
    }
  }

  lemma DeliverProgress(s: State, request: string, digest: Sha256<ResultText>)
    requires Inv(s)
    ensures Progress(s, Acknowledge(s, request, digest).state) && RunningKept(s, Acknowledge(s, request, digest).state)
  {
    AcknowledgeKeepsInv(s, request, digest);
    hide Inv;
    var s' := Acknowledge(s, request, digest).state;
    match Find(s.rows, request)
    case None => SameRowsProgress(s, s');
    case Some(i) =>
      if Acknowledge(s, request, digest).result.Ok? {
        UpdateProgress(s, s', i, s.rows[i].(delivered := true));
      } else {
        SameRowsProgress(s, s');
      }
  }

  lemma OpenProgress(s: State, node: Node, v: Binding, now: int64)
    requires Inv(s)
    ensures Progress(s, Recover(s, node, v, now).state)
  {
    RecoverAccepts(s, node, v, now);
    var s' := Recover(s, node, v, now).state;
    if s' == s {
      SameRowsProgress(s, s');
    } else {
      ClockKeepsInv(s, now);
      var s1 := Clock(s, now).state;
      if s' == s1 {
        SameRowsProgress(s, s');
      } else {
        RecoveredProgress(s, s1, node, v, now);
      }
    }
    hide Inv;
  }

  lemma RecoverShape(s: State, s1: State, node: Node, v: Binding, now: int64)
    requires Clock(s, now) == ClockRuns(s1) && FindRunning(s1.rows).Some? && Recover(s, node, v, now).result.Ok?
    ensures var row := s1.rows[FindRunning(s1.rows).value];
            && DecodeTask(row.payload).Some?
            && (var t := DecodeTask(row.payload).value;
                FinishTx(s1, t, InterruptedResult(t, row, now), TaskRecovered) == Ok(Recover(s, node, v, now).state))
  {
    hide Matches, Clock, Sum, FinishTx, Sound, DecodeTask;
  }

  lemma RecoveredProgress(s: State, s1: State, node: Node, v: Binding, now: int64)
    requires Inv(s) && Inv(s1) && Clock(s, now) == ClockRuns(s1) && FindRunning(s1.rows).Some?
    requires s1.rows == s.rows && s1.node == s.node && Remembers(s.audit, s1.audit) && s1.clockHigh >= s.clockHigh
    requires Recover(s, node, v, now).result.Ok?
    ensures Progress(s, Recover(s, node, v, now).state)
  {
    hide Recover, Clock, FinishTx, Progress;
    RecoverShape(s, s1, node, v, now);
    var i := FindRunning(s1.rows).value;
    var row := s1.rows[i];
    assert row in s1.rows;
    InterruptedResultOk(s1.node, row, now);
    var t := DecodeTask(row.payload).value;
    var r := InterruptedResult(t, row, now);
    hide Inv, RowOk, DecodeTask, InterruptedResult, ValidResult, CheckAssignment, EncodedSize;
    FinishKeepsInv(s1, i, r, TaskRecovered);
    var s' := Recover(s, node, v, now).state;
    UpdateProgress(s1, s', i, FinishedRow(row, r));
    ProgressSameStart(s, s1, s');
  }

  lemma ProgressSameStart(s: State, s1: State, s': State)
    requires s1.rows == s.rows && s1.node == s.node && Remembers(s.audit, s1.audit) && s1.clockHigh >= s.clockHigh
    requires Progress(s1, s')
    ensures Progress(s, s')
    ensures RunningKept(s1, s') ==> RunningKept(s, s')
  {
    hide Inv;
    forall r' | r' in s'.rows ensures Continues(s, r') || !Decided(s.audit, r'.request) {
      if !Continues(s1, r') && Decided(s.audit, r'.request) { DecisionsStay(s.audit, s1.audit, r'.request); }
    }
    assert s'.audit.events[..|s.audit.events|] == s1.audit.events[..|s.audit.events|];
  }

  // ---- Admission ----

  /** What an admission that ran adds to the table. */
  ghost predicate Admits(s: State, s': State, t: Task, payload: Payload, p: Policy, nowMs: int64) {
    && Inv(s') && Evolves(s, s') && s'.clockHigh >= s.clockHigh && s'.node == s.node
    && ValidPolicy(p) && FindRunning(s.rows).None? && !Decided(s.audit, t.request) && Decided(s'.audit, t.request)
    && s'.clockHigh - MAX_CLOCK_SKEW <= Seconds(nowMs) && Seconds(nowMs) > 0
    && (var row := JudgedRow(t, payload, p, nowMs, Running, NoCode);
        && row in s'.rows
        && forall ms: int {:trigger ExecutedAfter(ms)} :: ms >= Horizon(s') ==>
             Sum(s'.rows, ExecutedAfter(ms)) == Sum(s.rows, ExecutedAfter(ms)) + if nowMs > ms then 1 else 0)
    && Sum(s.rows, ExecutedAfter(nowMs - MINUTE_MS)) < p.maxPerMinute
    && Sum(s.rows, ExecutedAfter(nowMs - SECOND_MS)) < p.burst
  }

  lemma PrunedRunning(rows: seq<Row>, now: int64)
    ensures FindRunning(Prune(rows, now)).None? ==> FindRunning(rows).None?
  {
    if FindRunning(rows).Some? {
      var r := rows[FindRunning(rows).value];
      assert r in rows && r in Prune(rows, now);
    }
  }

  /** The judgement made by an admission: the row it adds, and the counts it was based on. */
  lemma AdmitShape(s: State, t: Task, payload: Payload, p: Policy, nowMs: int64) returns (row: Row)
    requires Inv(s) && Admit(s, t, payload, p, nowMs).Ok?
    ensures var (s', d) := Admit(s, t, payload, p, nowMs).value;
            && s'.rows == Prune(s.rows, Seconds(nowMs)) + [row] && s'.clockHigh == s.clockHigh && s'.node == s.node
            && FindRunning(Prune(s.rows, Seconds(nowMs))).None? && row.request == t.request
            && match d
               case Run(digest, startedAt) =>
                 && digest == p.digest && startedAt == Seconds(nowMs)
                 && row == JudgedRow(t, payload, p, nowMs, Running, NoCode)
                 && Sum(Prune(s.rows, Seconds(nowMs)), ExecutedAfter(nowMs - MINUTE_MS)) < p.maxPerMinute
                 && Sum(Prune(s.rows, Seconds(nowMs)), ExecutedAfter(nowMs - SECOND_MS)) < p.burst
               case Answer(text) => row.result == Some(text) && !row.executed
  {
    hide Inv, Record;
    var now := Seconds(nowMs);
    PolicyKeepsInv(s, p.digest);
    var s1 := UsePolicy(s, p.digest).value;
    CapacityKeepsInv(s1, p, now);
    CapacityKeepsClock(s1, p, now);
    hide UsePolicy, Capacity, Judge;
    var s2 := Capacity(s1, p, now).value;
    var minute, burst := Sum(s2.rows, ExecutedAfter(nowMs - MINUTE_MS)), Sum(s2.rows, ExecutedAfter(nowMs - SECOND_MS));
    var (status, code) := Judge(t, p, now, minute, burst);
    row := JudgedRow(t, payload, p, nowMs, status, code);
    if status.Running? { JudgedRunning(t, p, now, minute, burst); }
  }

  /** The admission path of prepare, from the state after its clock check. */
  lemma AdmitEffect(s: State, t: Task, payload: Payload, p: Policy, nowMs: int64)
    requires Inv(s) && ValidPolicy(p) && DecodeTask(payload) == Some(t) && t.agent == s.node.agent
             && t.epoch == s.node.epoch
    requires s.clockHigh >= Seconds(nowMs) >= s.clockHigh - MAX_CLOCK_SKEW && Seconds(nowMs) > 0
    requires Admit(s, t, payload, p, nowMs).Ok?
    ensures var (s', d) := Admit(s, t, payload, p, nowMs).value;
            match d
            case Run(digest, startedAt) =>
              digest == p.digest && startedAt == Seconds(nowMs) && Admits(s, s', t, payload, p, nowMs)
            case Answer(text) =>
              Progress(s, s') && RunningKept(s, s')
                && exists r :: r in s'.rows && r.request == t.request && r.result == Some(text)
  {
    hide Inv, Admit, ValidPolicy, JudgedRow, Sum, Prune, FindRunning, Evolves, RunningKept;
    var now := Seconds(nowMs);
    var row := AdmitShape(s, t, payload, p, nowMs);
    AdmitKeepsInv(s, t, payload, p, nowMs);
    var (s', d) := Admit(s, t, payload, p, nowMs).value;
    assert row in s'.rows;
    AdmittedEvolves(s, s', row, now);
    PrunedRunning(s.rows, now);
    AdmittedCounts(s, s', row, now);
    if d.Run? {
      PruneKeepsCounts(s, now, nowMs - MINUTE_MS);
      PruneKeepsCounts(s, now, nowMs - SECOND_MS);
      AdmittedWeight(t, payload, p, nowMs);
    }
  }

  lemma AdmittedCounts(s: State, s': State, row: Row, now: int64)
    requires Inv(s) && now <= s.clockHigh == s'.clockHigh && s'.rows == Prune(s.rows, now) + [row]
    ensures forall ms: int {:trigger ExecutedAfter(ms)} :: ms >= Horizon(s') ==>
              Sum(s'.rows, ExecutedAfter(ms)) == Sum(s.rows, ExecutedAfter(ms))
                + if row.executed && row.acceptedMs > ms then 1 else 0
  {
    hide Inv, Sum, Prune;
    forall ms: int | ms >= Horizon(s')
      ensures Sum(s'.rows, ExecutedAfter(ms)) == Sum(s.rows, ExecutedAfter(ms)) + ExecutedAfter(ms)(row)
    {
      PruneKeepsCounts(s, now, ms);
      SumAppend(Prune(s.rows, now), row, ExecutedAfter(ms));
    }
  }

  lemma AdmittedWeight(t: Task, payload: Payload, p: Policy, nowMs: int64)
    ensures var row := JudgedRow(t, payload, p, nowMs, Running, NoCode); row.executed && row.acceptedMs == nowMs
  {
  }

  lemma JudgedRunning(t: Task, p: Policy, now: int64, minute: nat, burst: nat)
    requires Judge(t, p, now, minute, burst).0.Running?
    ensures Judge(t, p, now, minute, burst).1 == NoCode && minute < p.maxPerMinute && burst < p.burst
    ensures now < t.expiresAt && t.policyDigest == p.digest
  {
  }

  lemma AdmittedEvolves(s: State, s': State, row: Row, now: int64)
    requires Remembers(s.audit, s'.audit) && s'.rows == Prune(s.rows, now) + [row] && !Decided(s.audit, row.request)
    ensures Evolves(s, s') && RunningKept(s, s')
  {
    forall r' | r' in s'.rows ensures Continues(s, r') || !Decided(s.audit, r'.request) {
      if r' != row {
        assert r' in Prune(s.rows, now);
        assert r' in s.rows;
      }
    }
    forall r | r in s.rows && r.state.Running? ensures r in s'.rows {
      assert r in Prune(s.rows, now);
    }
  }

  /** prepare as a whole: it admits, it answers with the stored bytes, or it only notes events. */
  lemma PrepareEffect(
      s: State, v: Binding, t: Task, payload: Payload, p: Policy, nowMs: int64, keyId: KeyId, checkedAt: int64)
    requires Inv(s) && DecodeTask(payload) == Some(t)
    ensures var tx := Prepare(s, v, t, payload, p, nowMs, keyId, checkedAt);
            match tx.result
            case Ok(Run(digest, startedAt)) =>
              digest == p.digest && startedAt == Seconds(nowMs) && Admits(s, tx.state, t, payload, p, nowMs)
            case Ok(Answer(text)) =>
              Progress(s, tx.state) && RunningKept(s, tx.state)
              && exists r :: r in tx.state.rows && r.request == t.request && r.result == Some(text)
            case Err(_) => Progress(s, tx.state) && RunningKept(s, tx.state)
  {
    hide Inv, Admit, Clock, ValidPolicy, CheckTask, Admits, Progress, RunningKept;
    var now := Seconds(nowMs);
    var tx := Prepare(s, v, t, payload, p, nowMs, keyId, checkedAt);
    PrepareKeepsInv(s, v, t, payload, p, nowMs, keyId, checkedAt);
    if tx.state == s && tx.result.Err? {
      RemembersItself(s);
      SameRowsProgress(s, s);
    } else {
      ClockKeepsInv(s, now);
      var s1 := Clock(s, now).state;
      if Clock(s, now).ClockStops? {
        SameRowsProgress(s, s1);
      } else {
        match Find(s1.rows, t.request)
        case Some(i) =>
          assert s1.rows[i] in s1.rows;
          ConflictKeepsInv(s1, t, payload, s1.rows[i]);
          RemembersTransitive(s, s1, tx.state);
          SameRowsProgress(s, tx.state);
        case None =>
          AdmitEffect(s1, t, payload, p, nowMs);
          if tx.result.value.Run? {
            AdmitsSameStart(s, s1, tx.state, t, payload, p, nowMs);
          } else {
            ProgressSameStart(s, s1, tx.state);
          }
      }
    }
  }

  lemma RemembersItself(s: State)
    ensures Remembers(s.audit, s.audit)
  {
  }

  lemma RemembersTransitive(a: State, b: State, c: State)
    requires Remembers(a.audit, b.audit) && Remembers(b.audit, c.audit)
    ensures Remembers(a.audit, c.audit)
  {
    assert c.audit.events[..|a.audit.events|] == b.audit.events[..|a.audit.events|];
  }

  lemma AdmitsSameStart(s: State, s1: State, s': State, t: Task, payload: Payload, p: Policy, nowMs: int64)
    requires s1.rows == s.rows && s1.node == s.node && Remembers(s.audit, s1.audit) && s1.clockHigh >= s.clockHigh
    requires Admits(s1, s', t, payload, p, nowMs)
    ensures Admits(s, s', t, payload, p, nowMs)
  {
    hide Inv, ValidPolicy;
    forall r' | r' in s'.rows ensures Continues(s, r') || !Decided(s.audit, r'.request) {
      if !Continues(s1, r') && Decided(s.audit, r'.request) { DecisionsStay(s.audit, s1.audit, r'.request); }
    }
    RemembersTransitive(s, s1, s');
    if Decided(s.audit, t.request) { DecisionsStay(s.audit, s1.audit, t.request); }
  }
}
