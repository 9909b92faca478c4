/** The probe's replay store and engine as the objects that change it. Every method is one transaction:
    it works on an open copy `tx` and either commits it or leaves the database as it was. */
module ProbeStore {
  import opened Core
  import opened Tables
  import opened Text
  import opened Protocol
  import opened Ledgers
  import opened Trust
  import opened Envelope
  import opened ProbeState
  import opened ProbeInvariants
  import opened ProbeRuns

  /** The query of recover: all running rows. */
  method RunningRows(rows: seq<Row>) returns (items: seq<nat>)
    ensures |items| == Sum(rows, RunningWeight())
    ensures forall k :: 0 <= k < |items| ==> items[k] < |rows| && rows[items[k]].state.Running?
    ensures |items| == 1 ==> FindRunning(rows) == Some(items[0])
    ensures items == [] ==> FindRunning(rows) == None
  {
    items := [];
    for i := 0 to |rows|
      invariant |items| == Sum(rows[..i], RunningWeight())
      invariant forall k :: 0 <= k < |items| ==> items[k] < i && rows[items[k]].state.Running?
      invariant |items| == 1 ==> FindRunning(rows[..i]) == Some(items[0])
      invariant items == [] ==> FindRunning(rows[..i]) == None
    {
      assert rows[..i + 1][..i] == rows[..i];
      if rows[i].state.Running? {
        items := items + [i];
      }
    }
    assert rows[..|rows|] == rows;
  }

  /** ORDER BY accepted_ms, request_id. */
  predicate Before(a: Row, b: Row) {
    a.acceptedMs < b.acceptedMs || (a.acceptedMs == b.acceptedMs && TextBefore(a.request, b.request))
  }

  predicate Awaiting(r: Row) {
    !r.delivered && !r.state.Running?
  }

  lemma BeforeTransitive(a: Row, b: Row, c: Row)
    ensures Before(a, b) && Before(b, c) ==> Before(a, c)
    ensures Before(a, b) || Before(b, a) || a.request == b.request
  {
    TextOrder(a.request, b.request, c.request);
  }

  ghost predicate First(rows: seq<Row>, n: nat, best: nat)
    requires best < |rows| && n <= |rows|
  {
    && !rows[best].delivered && rows[best].state != Running
    && forall j :: 0 <= j < n && j != best && !rows[j].delivered && rows[j].state != Running ==>
                     || rows[best].acceptedMs < rows[j].acceptedMs
                     || (rows[best].acceptedMs == rows[j].acceptedMs && TextBefore(rows[best].request, rows[j].request))
  }

  lemma BeforeAll(rows: seq<Row>, i: nat, best: nat)
    requires best < i < |rows| && First(rows, i, best) && Awaiting(rows[i]) && DistinctIds(rows)
    ensures First(rows, i + 1, if Before(rows[i], rows[best]) then i else best)
  {
    hide TextBefore;
    assert rows[best].request != rows[i].request;
    BeforeTransitive(rows[best], rows[i], rows[i]);
    if Before(rows[i], rows[best]) {
      forall j | 0 <= j < i && Awaiting(rows[j]) ensures Before(rows[i], rows[j]) {
        BeforeTransitive(rows[i], rows[best], rows[j]);
      }
    }
  }

  /** The query of Pending: the first undelivered, completed row in delivery order. */
  method Oldest(rows: seq<Row>) returns (best: Option<nat>)
    requires DistinctIds(rows)
    ensures best.None? <==> forall j :: 0 <= j < |rows| ==> !Awaiting(rows[j])
    ensures best.Some? ==> best.value < |rows| && First(rows, |rows|, best.value)
  {
    best := None;
    for i := 0 to |rows|
      invariant best.None? <==> forall j :: 0 <= j < i ==> !Awaiting(rows[j])
      invariant best.Some? ==> best.value < i && First(rows, i, best.value)
    {
      hide TextBefore, DistinctIds;
      if Awaiting(rows[i]) {
        if best.Some? { BeforeAll(rows, i, best.value); }
        if best.None? || Before(rows[i], rows[best.value]) {
          best := Some(i);
        }
      }
    }
  }

  /** The loop of verifyMigrationRecords. */
  method VerifyMigrationRecords(s: State) returns (ok: bool)
    ensures ok <==> RecordsConsistent(s)
  {
    if s.audit.reserved != 0 {
      return false;
    }
    var count := 0;
    while count < |s.rows|
      invariant 0 <= count <= |s.rows| && count <= MAX_RECORDS
      invariant forall i :: 0 <= i < count ==> RecordConsistent(s.node, s.rows[i])
    {
      if count + 1 > MAX_RECORDS || !RecordConsistent(s.node, s.rows[count]) {
        return false;
      }
      count := count + 1;
    }
    return true;
  }

  class Store {
    var db: State
    const verifier: Binding

    constructor (node: Node, verifier: Binding, now: int64)
      ensures db == Initialize(node, verifier, now) && this.verifier == verifier
    {
      this.verifier := verifier;
      db := Initialize(node, verifier, now);
    }

    /** State.recover: interrupted executions become indeterminate, whatever the worker was doing. */
    method Recover(node: Node, now: int64) returns (r: Result<(), Error>)
      modifies this
      ensures Tx(db, r) == ProbeState.Recover(old(db), node, verifier, now)
    {
      if node != db.node {
        return Err(WrongIdentity);
      }
      if !Matches(db.binding, verifier) {
        return Err(TrustMismatch);
      }
      if !Sound(db.audit) {
        return Err(AuditCorrupt);
      }
      hide Matches, Sound, Clock, FinishTx, InterruptedResult, Sum;
      var clock := Clock(db, now);
      if clock.ClockInvalid? {
        return Err(InvalidClock);
      }
      var tx := clock.state;
      if clock.ClockStops? {
        db := tx;
        return Err(ClockBlocked);
      }
      var items := RunningRows(tx.rows);
      if tx.audit.reserved != |items| || |items| > 1 {
        return Err(InconsistentReservations);
      }
      ghost var start := tx;
      for k := 0 to |items|
        invariant |items| == 1 ==> FindRunning(start.rows) == Some(items[0])
        invariant k == 0 ==> tx == start
        invariant k == 1 ==> ProbeState.Recover(old(db), node, verifier, now) == Tx(tx, Ok(()))
        invariant db == old(db)
      {
        var row := tx.rows[items[k]];
        var t := DecodeTask(row.payload);
        if t.None? || Sha256(row.payload) != row.payloadDigest {
          return Err(CorruptExecution);
        }
        var finished := FinishTx(tx, t.value, InterruptedResult(t.value, row, now), TaskRecovered);
        if finished.Err? {
          return Err(finished.error);
        }
        tx := finished.value;
      }
      db := tx;
      return Ok(());
    }

    /** State.Ready. */
    method Ready(p: Policy, now: int64) returns (r: Result<(), Error>)
      modifies this
      ensures Tx(db, r) == ProbeState.Ready(old(db), verifier, p, now)
    {
      if verifier.Installed? {
        var active := false;
        for i := 0 to |verifier.trust.keys|
          invariant active <==>
                      exists j ::
                        0 <= j < i && verifier.trust.keys[j].notBefore <= now < verifier.trust.keys[j].notAfter
        {
          active := active || verifier.trust.keys[i].notBefore <= now < verifier.trust.keys[i].notAfter;
        }
        if !active {
          return Err(NoActiveKey);
        }
      }
      if !ValidPolicy(p) {
        return Err(BadPolicy);
      }
      hide Clock, UsePolicy, Capacity, ValidPolicy;
      var clock := Clock(db, now);
      if clock.ClockInvalid? {
        return Err(InvalidClock);
      }
      if clock.ClockStops? {
        db := clock.state;
        return Err(ClockBlocked);
      }
      var tx := UsePolicy(clock.state, p.digest);
      if tx.Err? {
        return Err(tx.error);
      }
      tx := Capacity(tx.value, p, now);
      if tx.Err? {
        return Err(tx.error);
      }
      if FindRunning(tx.value.rows).Some? {
        return Err(Busy);
      }
      db := tx.value;
      return Ok(());
    }

    /** State.prepare. */
    method Prepare(t: Task, payload: Payload, p: Policy, nowMs: int64, keyId: KeyId, checkedAt: int64)
      returns (r: Result<Decision, Error>)
      modifies this
      ensures Tx(db, r) == ProbeState.Prepare(old(db), verifier, t, payload, p, nowMs, keyId, checkedAt)
    {
      hide Clock, ValidPolicy, CheckTask, Replay, Admit;
      if !ValidPolicy(p) {
        return Err(BadPolicy);
      }
      if t.agent != db.node.agent || t.epoch != db.node.epoch {
        return Err(WrongIdentity);
      }
      var clock := Clock(db, Seconds(nowMs));
      if clock.ClockInvalid? {
        return Err(InvalidClock);
      }
      var tx := clock.state;
      if clock.ClockStops? {
        db := tx;
        return Err(ClockBlocked);
      }
      if verifier.Installed? && !CheckTask(verifier.trust, t, keyId, checkedAt) {
        return Err(OutsideKeyWindow);
      }
      var i := Find(tx.rows, t.request);
      if i.Some? {
        var replay := Replay(tx, t, payload, tx.rows[i.value]);
        if replay.result.Ok? || replay.result.error == Conflict {
          db := replay.state;
        }
        return replay.result;
      }
      var admitted := Admit(tx, t, payload, p, nowMs);
      if admitted.Err? {
        return Err(admitted.error);
      }
      db := admitted.value.0;
      return Ok(admitted.value.1);
    }

    /** State.finish. */
    method Finish(t: Task, result: TaskResult) returns (r: Result<ResultText, Error>)
      modifies this
      ensures Tx(db, r) == ProbeState.Finish(old(db), t, result)
    {
      hide FinishTx;
      var tx := FinishTx(db, t, result, TaskCompleted);
      if tx.Err? {
        return Err(tx.error);
      }
      db := tx.value;
      return Ok(Marshal(result));
    }

    /** State.rejectInvalid. */
    method RejectInvalid() returns (r: Result<(), Error>)
      modifies this
      ensures Tx(db, r) == ProbeState.RejectInvalid(old(db))
    {
      var l := Append(db.audit, LocalEvent(InvalidTask), 0);
      if l.Err? {
        return Err(AuditFailed(l.error));
      }
      db := db.(audit := l.value);
      return Ok(());
    }

    /** State.Pending: the oldest undelivered result. A store the worker produced is never found corrupt. */
    method Pending() returns (r: Result<Option<ResultText>, Error>)
      requires Inv(db)
      ensures r.Ok?
      ensures r.value.None? <==> forall i :: 0 <= i < |db.rows| ==> !Awaiting(db.rows[i])
      ensures r.value.Some? ==>
                exists i: nat :: i < |db.rows| && First(db.rows, |db.rows|, i) && db.rows[i].result == r.value
    {
      var best := Oldest(db.rows);
      if best.None? {
        return Ok(None);
      }
      var row := db.rows[best.value];
      assert row in db.rows && RowOk(db.node, row);
      hide Inv;
      if row.result.None? || DecodeResult(row.result.value).None?
         || row.resultDigest != Some(Sha256(row.result.value)) {
        return Err(CorruptCache);
      }
      return Ok(row.result);
    }

    /** State.Acknowledge. */
    method Acknowledge(request: string, digest: Sha256<ResultText>) returns (r: Result<(), Error>)
      modifies this
      ensures Tx(db, r) == ProbeState.Acknowledge(old(db), request, digest)
    {
      var i := Find(db.rows, request);
      if i.None? || db.rows[i.value].state.Running? || db.rows[i.value].resultDigest != Some(digest) {
        return Err(AckMismatch);
      }
      db := db.(rows := db.rows[i.value := db.rows[i.value].(delivered := true)]);
      return Ok(());
    }

    /** MigrateTrust. */
    method MigrateTrust(node: Node, legacy: PublicKey, previous: Option<TrustSet>, next: TrustSet, now: int64)
      returns (r: Result<(), Error>)
      modifies this
      ensures Tx(db, r) == ProbeState.MigrateTrust(old(db), node, legacy, previous, next, now)
      ensures if r.Ok? then db.binding.Installed? && SameTrust(db.binding.trust, next) else db == old(db)
    {
      assert SameTrust(next, next);
      hide Accepted, Matches, RecordsConsistent, SameTrust, Sound;
      if previous.None? && |legacy| != KEY_SIZE {
        return Err(RejectedTransition);
      }
      var accepted := CheckTransition(previous, Sha256(legacy), next);
      if !accepted {
        return Err(RejectedTransition);
      }
      if node != db.node {
        return Err(WrongIdentity);
      }
      if db.clockHigh <= 0 || db.clockBlocked || now < db.clockHigh - MAX_CLOCK_SKEW {
        return Err(ClockBlocked);
      }
      if !Sound(db.audit) {
        return Err(AuditCorrupt);
      }
      var consistent := VerifyMigrationRecords(db);
      if !consistent {
        return Err(CorruptRecords);
      }
      if db.binding.Installed? && SameTrust(db.binding.trust, next) {
        return Ok(());
      }
      var current := if previous.None? then Pinned(legacy) else Installed(previous.value);
      if !Matches(db.binding, current) {
        return Err(TrustMismatch);
      }
      var l := Append(db.audit, LocalEvent(TrustChanged), 0);
      if l.Err? {
        return Err(AuditFailed(l.error));
      }
      db := db.(binding := Installed(next), audit := l.value);
      return Ok(());
    }
  }

  /** The three steps of a run that one call of Process takes. */
  ghost function Processed(
      w: World, e: Envelope, loaded: Option<Policy>, verifiedAt: int64, nowMs: int64, checkedAt: int64,
      beginAt: int64, outcome: Outcome, finishedAt: int64): World
  {
    Apply(Apply(Apply(w, Receive(e, loaded, verifiedAt, nowMs, checkedAt)), Begin(beginAt)),
        Complete(outcome, finishedAt))
  }

  lemma ProcessStops(w: World, e: Envelope, loaded: Option<Policy>, verifiedAt: int64, nowMs: int64, checkedAt: int64,
                     beginAt: int64, outcome: Outcome, finishedAt: int64)
    requires Apply(w, Receive(e, loaded, verifiedAt, nowMs, checkedAt)).flight.None?
    ensures Processed(w, e, loaded, verifiedAt, nowMs, checkedAt, beginAt, outcome, finishedAt)
            == Apply(w, Receive(e, loaded, verifiedAt, nowMs, checkedAt))
  {
    hide Received, Check, ForNode;
  }

  lemma ProcessRuns(
      w: World, w1: World, e: Envelope, loaded: Option<Policy>, verifiedAt: int64, nowMs: int64, checkedAt: int64,
      beginAt: int64, outcome: Outcome, finishedAt: int64)
    requires Apply(w, Receive(e, loaded, verifiedAt, nowMs, checkedAt)) == w1
    requires w1.flight.Some? && w1.flight.value.phase.Admitted?
    ensures var f := w1.flight.value;
            var collected := beginAt < f.task.expiresAt;
            var tx := Finish(w1.state, f.task,
                Normalise(f.task, f.policy.digest, f.startedAt, !collected, outcome, finishedAt, f.policy));
            Processed(w, e, loaded, verifiedAt, nowMs, checkedAt, beginAt, outcome, finishedAt)
            == w1.(state := tx.state, flight := None,
                   entered := if collected then w1.entered + [f.task.request] else w1.entered,
                   replies := if tx.result.Ok? then w1.replies + [Reply(f.task.request, tx.result.value)]
                              else w1.replies)
  {
    hide Received, Check, ForNode, Normalise, Finish;
  }

  lemma ReceiveIs(w: World, e: Envelope, loaded: Option<Policy>, verifiedAt: int64, nowMs: int64, checkedAt: int64)
    requires w.worker.Some?
    ensures var v := Check(e, w.worker.value, verifiedAt);
            Apply(w, Receive(e, loaded, verifiedAt, nowMs, checkedAt))
            == if !ForNode(w.state, v) then w.(state := RejectInvalid(w.state).state)
               else if loaded.None? then w
               else Received(w, v.value, loaded.value, nowMs, checkedAt)
  {
  }

  class Engine {
    const store: Store

    constructor (store: Store)
      ensures this.store == store
    {
      this.store := store;
    }

    /** The middle of Process: what the collector returned becomes the result to record. */
    method Execute(t: Task, p: Policy, startedAt: int64, beginAt: int64, outcome: Outcome, finishedAt: int64)
      returns (r: TaskResult, collected: bool)
      ensures collected <==> beginAt < t.expiresAt
      ensures r == Normalise(t, p.digest, startedAt, !collected, outcome, finishedAt, p)
      ensures ValidTask(t) && ValidPolicy(p) && startedAt > 0 ==>
                ValidResult(r) && CheckAssignment(r, t)
                && RecordsOutcome(t, p, startedAt, !collected, outcome, finishedAt, r)
    {
      if ValidTask(t) && ValidPolicy(p) && startedAt > 0 {
        NormalisedResultFits(t, startedAt, beginAt >= t.expiresAt, outcome, finishedAt, p);
      }
      hide ValidResult, CheckAssignment, EncodedSize, RecordsOutcome, ValidPolicy, ValidTask;
      r := EmptyResult(t, p.digest, startedAt, startedAt, Failed, CollectorFailed);
      collected := beginAt < t.expiresAt;
      if !collected {
        r := r.(status := Expired, code := ExpiredCode);
      } else {
        match outcome {
          case CollectorError =>
          case TimedOut => r := r.(code := Deadline);
          case Collected(data) => r := r.(status := Succeeded, code := NoCode, data := data);
        }
      }
      r := r.(finishedAt := Max(r.startedAt, finishedAt));
      if !ValidResult(r) || !CheckAssignment(r, t) {
        r := r.(status := Failed, code := CollectorFailed, data := EmptyObject);
      }
      if EncodedSize(r) > p.maxResultBytes {
        r := r.(status := Failed, code := ResultLimit, data := EmptyObject);
      }
    }

    /** Engine.Process. The policy file, the clock readings and what the collector does are inputs;
        `collected` tells whether the collector was entered. */
    method Process(e: Envelope, loaded: Option<Policy>, verifiedAt: int64, nowMs: int64, checkedAt: int64,
                   beginAt: int64, outcome: Outcome, finishedAt: int64, ghost w: World)
      returns (reply: Option<ResultText>, collected: bool)
      requires w.state == store.db && w.worker == Some(store.verifier) && w.flight.None?
      modifies store
      ensures var w' := Processed(w, e, loaded, verifiedAt, nowMs, checkedAt, beginAt, outcome, finishedAt);
              && w'.state == store.db && w'.flight.None?
              && |w'.entered| == |w.entered| + (if collected then 1 else 0)
              && match reply
                 case None => w'.replies == w.replies
                 case Some(text) => |w'.replies| == |w.replies| + 1 && w'.replies[|w.replies|].text == text
      ensures var w' := Processed(w, e, loaded, verifiedAt, nowMs, checkedAt, beginAt, outcome, finishedAt);
              var v := Check(e, store.verifier, verifiedAt);
              && (collected ==> w'.admissions != w.admissions)
              && (w'.admissions != w.admissions ==>
                    && v.Some? && loaded.Some? && (collected <==> beginAt < v.value.task.expiresAt)
                    && (reply.Some? ==>
                          && reply.value.ResultText? && reply.value.layout == ""
                          && RecordsOutcome(v.value.task, loaded.value, Seconds(nowMs), !collected, outcome, finishedAt,
                                            reply.value.result)))
    {
      ReceiveIs(w, e, loaded, verifiedAt, nowMs, checkedAt);
      hide ProbeState.Prepare, ProbeState.Finish, ProbeState.RejectInvalid, Normalise, Apply, Processed, Check;
      ghost var w1 := Apply(w, Receive(e, loaded, verifiedAt, nowMs, checkedAt));
      if w1.flight.None? {
        ProcessStops(w, e, loaded, verifiedAt, nowMs, checkedAt, beginAt, outcome, finishedAt);
      }
      reply, collected := None, false;
      var v := Check(e, store.verifier, verifiedAt);
      if v.None? || v.value.task.agent != store.db.node.agent || v.value.task.epoch != store.db.node.epoch {
        var ignored := store.RejectInvalid();
        return;
      }
      if loaded.None? {
        return;
      }
      var t, p := v.value.task, loaded.value;
      var d := store.Prepare(t, v.value.payload, p, nowMs, v.value.keyId, checkedAt);
      if d.Err? {
        return;
      }
      if d.value.Answer? {
        return Some(d.value.text), false;
      }
      PrepareRuns(w.state, store.verifier, t, v.value.payload, p, nowMs, v.value.keyId, checkedAt);
      hide RecordsOutcome, ValidResult, CheckAssignment, ValidPolicy;
      var r: TaskResult;
      r, collected := Execute(t, p, d.value.startedAt, beginAt, outcome, finishedAt);
      ProcessRuns(w, w1, e, loaded, verifiedAt, nowMs, checkedAt, beginAt, outcome, finishedAt);
      var finished := store.Finish(t, r);
      if finished.Ok? {
        reply := Some(finished.value);
      }
    }
  }

  lemma PrepareRuns(
      s: State, v: Binding, t: Task, payload: Payload, p: Policy, nowMs: int64, keyId: KeyId, checkedAt: int64)
    ensures var r := ProbeState.Prepare(s, v, t, payload, p, nowMs, keyId, checkedAt).result;
            r.Ok? && r.value.Run? ==>
              r.value.digest == p.digest && r.value.startedAt == Seconds(nowMs) > 0 && ValidPolicy(p)
  {
    ClockNeedsTime(s, Seconds(nowMs));
    hide Clock, ValidPolicy, CheckTask, Capacity, UsePolicy, Judge, JudgedRow, Record;
  }

  lemma ClockNeedsTime(s: State, now: int64)
    ensures !Clock(s, now).ClockInvalid? ==> now > 0
  {
  }
}
