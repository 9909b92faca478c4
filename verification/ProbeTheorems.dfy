/** At-most-once execution, identical answers, rate limits and the result budget over every run of a probe. */
module ProbeTheorems {
  import opened Core
  import opened Tables
  import opened Protocol
  import opened Ledgers
  import opened Trust
  import opened Envelope
  import opened ProbeState
  import opened ProbeInvariants
  import opened ProbeRuns

  // ---- Invariants about what has happened so far ----

  predicate FlightRow(f: Flight, row: Row) {
    row.state.Running? && DecodeTask(row.payload) == Some(f.task) && row.policyDigest == f.policy.digest
      && row.startedAt == f.startedAt
  }

  /** An execution in progress has its running row in the store. */
  ghost predicate FlightOk(w: World) {
    w.flight.Some? ==>
      && w.worker.Some? && ValidPolicy(w.flight.value.policy)
      && exists row :: row in w.state.rows && FlightRow(w.flight.value, row)
  }

  /** The collector has been entered at most once for each request, and only for decided ones. */
  ghost predicate EnteredOk(w: World) {
    && Distinct(w.entered)
    && (forall id :: id in w.entered ==> Decided(w.state.audit, id))
    && (w.flight.Some? && w.flight.value.phase.Admitted? ==> w.flight.value.task.request !in w.entered)
  }

  ghost predicate RepliesOk(s: State, replies: seq<Reply>) {
    && (forall a :: a in replies ==> Decided(s.audit, a.request))
    && (forall a, r :: a in replies && r in s.rows && r.request == a.request ==> r.result == Some(a.text))
    && (forall a, b :: a in replies && b in replies && a.request == b.request ==> a.text == b.text)
  }

  function CountAfter(admissions: seq<Admission>, ms: int): nat {
    if admissions == [] then 0
    else
      var n := |admissions| - 1;
      CountAfter(admissions[..n], ms) + if admissions[n].atMs > ms then 1 else 0
  }

  /** The i-th admission was within the limits of its own policy, counting itself. */
  ghost predicate WithinRate(admissions: seq<Admission>, i: nat)
    requires i < |admissions|
  {
    var a := admissions[i];
    && CountAfter(admissions[..i + 1], a.atMs - MINUTE_MS) <= a.policy.maxPerMinute
    && CountAfter(admissions[..i + 1], a.atMs - SECOND_MS) <= a.policy.burst
  }

  ghost predicate RatesOk(admissions: seq<Admission>) {
    forall i: nat :: i < |admissions| ==> WithinRate(admissions, i)
  }

  /** Within the retained period the table still counts every admission that ever happened. */
  ghost predicate CountsAgree(s: State, admissions: seq<Admission>) {
    forall ms: int {:trigger ExecutedAfter(ms)} ::
      ms >= Horizon(s) ==> CountAfter(admissions, ms) == Sum(s.rows, ExecutedAfter(ms))
  }

  ghost predicate Good(w: World) {
    && Inv(w.state) && FlightOk(w) && EnteredOk(w) && RepliesOk(w.state, w.replies)
    && RatesOk(w.admissions) && CountsAgree(w.state, w.admissions)
  }

  // ---- Preservation ----

  lemma RepliesSurvive(s: State, s': State, replies: seq<Reply>)
    requires RepliesOk(s, replies) && Evolves(s, s')
    ensures RepliesOk(s', replies)
  {
    forall a | a in replies ensures Decided(s'.audit, a.request) { DecisionsStay(s.audit, s'.audit, a.request); }
    forall a, r' | a in replies && r' in s'.rows && r'.request == a.request ensures r'.result == Some(a.text) {
      assert Continues(s, r');
      var r :| r in s.rows && r.request == r'.request && (r.result.Some? ==> r'.result == r.result);
    }
  }

  lemma EnteredSurvives(w: World, w': World)
    requires EnteredOk(w) && Remembers(w.state.audit, w'.state.audit) && w'.entered == w.entered
    requires w'.flight == w.flight || w'.flight.None?
    ensures EnteredOk(w')
  {
    forall id | id in w'.entered ensures Decided(w'.state.audit, id) {
      DecisionsStay(w.state.audit, w'.state.audit, id);
    }
  }

  lemma FlightSurvives(w: World, w': World)
    requires FlightOk(w) && w'.worker == w.worker
             && (w'.flight.None? || (w'.flight == w.flight && RunningKept(w.state, w'.state)))
    ensures FlightOk(w')
  {
    if w'.flight.Some? {
      var row :| row in w.state.rows && FlightRow(w.flight.value, row);
      assert row in w'.state.rows;
    }
  }

  /** A step that only advances the store keeps everything. */
  lemma ProgressKeepsGood(w: World, w': World)
    requires Good(w) && Progress(w.state, w'.state) && w'.entered == w.entered && w'.replies == w.replies
             && w'.admissions == w.admissions
    requires w'.flight.None? || (w'.flight == w.flight && w'.worker == w.worker && RunningKept(w.state, w'.state))
    ensures Good(w')
  {
    hide Inv, Decided, WithinRate;
    RepliesSurvive(w.state, w'.state, w.replies);
    EnteredSurvives(w, w');
    if w'.flight.Some? { FlightSurvives(w, w'); }
  }

  lemma OneRowPerRequest(rows: seq<Row>, a: Row, b: Row)
    requires DistinctIds(rows) && a in rows && b in rows && a.request == b.request
    ensures a == b
  {
    var i, j :| 0 <= i < |rows| && 0 <= j < |rows| && rows[i] == a && rows[j] == b;
  }

  lemma ReplyAdded(s: State, replies: seq<Reply>, a: Reply)
    requires Inv(s) && RepliesOk(s, replies)
             && exists r :: r in s.rows && r.request == a.request && r.result == Some(a.text)
    ensures RepliesOk(s, replies + [a])
  {
    hide RowOk, Decided, DistinctIds, UniqueDecisions;
    var row :| row in s.rows && row.request == a.request && row.result == Some(a.text);
    forall r | r in s.rows && r.request == a.request ensures r == row { OneRowPerRequest(s.rows, r, row); }
  }

  lemma AnsweredKeepsGood(w: World, s': State, a: Reply)
    requires Good(w) && Progress(w.state, s') && RunningKept(w.state, s')
    requires exists r :: r in s'.rows && r.request == a.request && r.result == Some(a.text)
    ensures Good(w.(state := s', replies := w.replies + [a]))
  {
    ProgressKeepsGood(w, w.(state := s'));
    ReplyAdded(s', w.replies, a);
    hide Inv, Decided, WithinRate;
    var w1 := w.(state := s');
    var w' := w1.(replies := w.replies + [a]);
    FlightSurvives(w1, w');
  }

  lemma CountAppend(admissions: seq<Admission>, a: Admission, ms: int)
    ensures CountAfter(admissions + [a], ms) == CountAfter(admissions, ms) + if a.atMs > ms then 1 else 0
  {
    assert (admissions + [a])[..|admissions|] == admissions;
  }

  lemma AdmissionKeepsRates(
      s: State, s': State, admissions: seq<Admission>, t: Task, payload: Payload, p: Policy, nowMs: int64)
    requires RatesOk(admissions) && CountsAgree(s, admissions) && Admits(s, s', t, payload, p, nowMs)
    ensures RatesOk(admissions + [Admission(t.request, nowMs, p)])
            && CountsAgree(s', admissions + [Admission(t.request, nowMs, p)])
  {
    hide Inv, ValidPolicy, Decided, Evolves, FindRunning;
    var a := Admission(t.request, nowMs, p);
    var all := admissions + [a];
    forall i: nat | i < |all| ensures WithinRate(all, i) {
      if i < |admissions| {
        assert WithinRate(admissions, i);
        assert all[..i + 1] == admissions[..i + 1];
      } else {
        assert all[..i + 1] == all;
        CountAppend(admissions, a, nowMs - MINUTE_MS);
        CountAppend(admissions, a, nowMs - SECOND_MS);
        assert nowMs - MINUTE_MS >= Horizon(s) && nowMs - SECOND_MS >= Horizon(s);
        assert CountAfter(admissions, nowMs - MINUTE_MS) == Sum(s.rows, ExecutedAfter(nowMs - MINUTE_MS));
        assert CountAfter(admissions, nowMs - SECOND_MS) == Sum(s.rows, ExecutedAfter(nowMs - SECOND_MS));
      }
    }
    forall ms: int | ms >= Horizon(s') ensures CountAfter(all, ms) == Sum(s'.rows, ExecutedAfter(ms)) {
      CountAppend(admissions, a, ms);
      assert CountAfter(admissions, ms) == Sum(s.rows, ExecutedAfter(ms));
    }
  }

  lemma AdmissionKeepsGood(w: World, s': State, t: Task, payload: Payload, p: Policy, nowMs: int64)
    requires Good(w) && w.worker.Some? && DecodeTask(payload) == Some(t) && Admits(w.state, s', t, payload, p, nowMs)
    ensures Good(w.(state := s', flight := Some(Flight(t, Seconds(nowMs), p, Admitted)),
              admissions := w.admissions + [Admission(t.request, nowMs, p)]))
  {
    AdmissionKeepsRates(w.state, s', w.admissions, t, payload, p, nowMs);
    hide Inv, ValidPolicy, Decided, WithinRate, FindRunning, CountsAgree, RatesOk;
    RepliesSurvive(w.state, s', w.replies);
    EnteredSurvives(w, w.(state := s', flight := None));
    var row := JudgedRow(t, payload, p, nowMs, Running, NoCode);
    assert FlightRow(Flight(t, Seconds(nowMs), p, Admitted), row);
  }

  lemma ReceivedKeepsGood(w: World, v: Verified, p: Policy, nowMs: int64, checkedAt: int64)
    requires Good(w) && w.worker.Some? && DecodeTask(v.payload) == Some(v.task)
    ensures Good(Received(w, v, p, nowMs, checkedAt))
  {
    var tx := Prepare(w.state, w.worker.value, v.task, v.payload, p, nowMs, v.keyId, checkedAt);
    assert Inv(w.state);
    PrepareEffect(w.state, w.worker.value, v.task, v.payload, p, nowMs, v.keyId, checkedAt);
    hide Good, Prepare, Admits, Progress, RunningKept;
    match tx.result
    case Ok(Run(_, _)) => AdmissionKeepsGood(w, tx.state, v.task, v.payload, p, nowMs);
    case Ok(Answer(text)) => AnsweredKeepsGood(w, tx.state, Reply(v.task.request, text));
    case Err(_) => ProgressKeepsGood(w, w.(state := tx.state));
  }

  lemma BeginKeepsGood(w: World, now: int64)
    requires Good(w)
    ensures Good(Apply(w, Begin(now)))
  {
    hide Inv, WithinRate, CountsAgree, RepliesOk, Decided;
    var w' := Apply(w, Begin(now));
    if w' != w {
      var row :| row in w.state.rows && FlightRow(w.flight.value, row);
      assert FlightRow(w'.flight.value, row);
      FlightIsDecided(w, row);
    }
  }

  lemma FlightIsDecided(w: World, row: Row)
    requires Inv(w.state) && w.flight.Some? && row in w.state.rows && FlightRow(w.flight.value, row)
    ensures Decided(w.state.audit, w.flight.value.task.request)
  {
    assert RowOk(w.state.node, row);
  }

  /** Recording the outcome of an execution in progress always succeeds. */
  lemma CompleteEffect(w: World, outcome: Outcome, now: int64)
    requires Good(w) && w.flight.Some?
    ensures var f := w.flight.value;
            var tx := Finish(w.state, f.task, FlightResult(f, outcome, now));
            && tx.result.Ok? && Progress(w.state, tx.state)
            && exists r :: r in tx.state.rows && r.request == f.task.request && r.result == Some(tx.result.value)
  {
    var f, s := w.flight.value, w.state;
    var r := FlightResult(f, outcome, now);
    var row :| row in s.rows && FlightRow(f, row);
    var i :| 0 <= i < |s.rows| && s.rows[i] == row;
    assert RowOk(s.node, row);
    NormalisedResultFits(f.task, f.startedAt, f.phase.TooLate?, outcome, now, f.policy);
    assert EncodedSize(r) <= MAX_STORED_RESULT;
    hide FlightResult, Inv, RowOk, FinishTx, EncodedSize, ValidResult, CheckAssignment;
    FinishKeepsInv(s, i, r, TaskCompleted);
    var tx := Finish(s, f.task, r);
    UpdateProgress(s, tx.state, i, FinishedRow(row, r));
    assert tx.state.rows[i] == FinishedRow(row, r);
    assert tx.state.rows[i] in tx.state.rows;
  }

  /** Recording the outcome of an execution in progress succeeds exactly when the host's clock can stamp its event. It
      then answers with the stored bytes; otherwise the store is left as by a crash at that moment. */
  lemma RecordingSucceedsIff(w: World, outcome: Outcome, now: int64, stamp: int)
    requires Good(w) && w.flight.Some?
    ensures var f := w.flight.value;
            var tx := Stamped(w.state, Finish(w.state, f.task, FlightResult(f, outcome, now)), stamp);
            if stamp > 0 then
              tx.result.Ok?
              && exists r :: r in tx.state.rows && r.request == f.task.request && r.result == Some(tx.result.value)
            else tx.result.Err? && w.(state := tx.state, flight := None) == Apply(w, Abandon)
  {
    hide Good, FlightResult, Finish;
    CompleteEffect(w, outcome, now);
    FinishIsLogged(w.state, w.flight.value.task, FlightResult(w.flight.value, outcome, now));
  }

  lemma FinishIsLogged(s: State, t: Task, r: TaskResult)
    requires Finish(s, t, r).result.Ok?
    ensures Finish(s, t, r).state.audit.events != s.audit.events
  {
    hide ValidResult, CheckAssignment, Find, Decided, Decides, Marshal;
    assert |Finish(s, t, r).state.audit.events| == |s.audit.events| + 1;
  }

  lemma CompleteKeepsGood(w: World, outcome: Outcome, now: int64)
    requires Good(w)
    ensures Good(Apply(w, Complete(outcome, now)))
  {
    hide Good, Finish, Progress, FlightResult;
    if w.flight.Some? && !w.flight.value.phase.Admitted? {
      CompleteEffect(w, outcome, now);
      var f := w.flight.value;
      var tx := Finish(w.state, f.task, FlightResult(f, outcome, now));
      ProgressKeepsGood(w, w.(state := tx.state, flight := None));
      var w1 := w.(state := tx.state, flight := None);
      AnsweredLater(w1, Reply(f.task.request, tx.result.value));
    }
  }

  lemma AnsweredLater(w: World, a: Reply)
    requires Good(w) && w.flight.None?
             && exists r :: r in w.state.rows && r.request == a.request && r.result == Some(a.text)
    ensures Good(w.(replies := w.replies + [a]))
  {
    ReplyAdded(w.state, w.replies, a);
    hide Inv, Decided, WithinRate, CountsAgree, RatesOk;
  }

  lemma ReceiveKeepsGood(w: World, e: Envelope, p: Option<Policy>, verifiedAt: int64, nowMs: int64, checkedAt: int64)
    requires Good(w)
    ensures Good(Apply(w, Receive(e, p, verifiedAt, nowMs, checkedAt)))
  {
    var s := w.state;
    assert Inv(s);
    hide Good, Progress, RunningKept, Inv, Check, ForNode, Prepare;
    if w.worker.Some? {
      var v := Check(e, w.worker.value, verifiedAt);
      if !ForNode(s, v) {
        RejectInvalidKeepsInv(s);
        RejectKeepsClock(s);
        SameRowsProgress(s, RejectInvalid(s).state);
        ProgressKeepsGood(w, Apply(w, Receive(e, p, verifiedAt, nowMs, checkedAt)));
      } else if p.Some? {
        ReceivedKeepsGood(w, v.value, p.value, nowMs, checkedAt);
      }
    }
  }

  /** Every step keeps the invariant. */
  lemma ApplyKeepsGood(w: World, step: Step)
    requires Good(w)
    ensures Good(Apply(w, step))
  {
    var s := w.state;
    assert Inv(s);
    hide Good, Progress, RunningKept, Inv, Recover, Ready, Received, Check, Finish, MigrateTrust, Acknowledge;
    match step
    case Open(node, v, now) =>
      OpenProgress(s, node, v, now);
      if w.worker.None? { OpenKeepsGood(w, node, v, now); }
    case Crash =>
      RemembersItself(s);
      SameRowsProgress(s, s);
      ProgressKeepsGood(w, Apply(w, step));
    case CheckReady(p, now) =>
      if w.worker.Some? {
        ReadyProgress(s, w.worker.value, p, now);
        ProgressKeepsGood(w, Apply(w, step));
      }
    case Receive(e, p, verifiedAt, nowMs, checkedAt) =>
      ReceiveKeepsGood(w, e, p, verifiedAt, nowMs, checkedAt);
    case Begin(now) => BeginKeepsGood(w, now);
    case Complete(outcome, now) => CompleteKeepsGood(w, outcome, now);
    case Abandon =>
      RemembersItself(s);
      SameRowsProgress(s, s);
      ProgressKeepsGood(w, Apply(w, step));
    case Deliver(request, digest) =>
      if w.worker.Some? {
        DeliverProgress(s, request, digest);
        ProgressKeepsGood(w, Apply(w, step));
      }
    case Migrate(node, legacy, previous, next, now) =>
      if w.worker.None? { MigrateKeepsGood(w, node, legacy, previous, next, now); }
  }

  lemma RejectKeepsClock(s: State)
    ensures RejectInvalid(s).state.clockHigh == s.clockHigh && RejectInvalid(s).state.node == s.node
  {
  }

  lemma NoWorkerNoFlight(w: World)
    requires Good(w) && w.worker.None?
    ensures w.flight.None? && Inv(w.state)
  {
    hide Inv;
  }

  lemma OpenKeepsGood(w: World, node: Node, v: Binding, now: int64)
    requires Good(w) && w.worker.None? && Progress(w.state, Recover(w.state, node, v, now).state)
    ensures Good(Apply(w, Open(node, v, now)))
  {
    hide Good, Progress, Recover, RunningKept;
    NoWorkerNoFlight(w);
    ProgressKeepsGood(w, Apply(w, Open(node, v, now)));
  }

  lemma MigrateKeepsClock(
      s: State, node: Node, legacy: PublicKey, previous: Option<TrustSet>, next: TrustSet, now: int64)
    ensures var s' := MigrateTrust(s, node, legacy, previous, next, now).state;
            s'.clockHigh == s.clockHigh && s'.node == s.node
  {
    hide Accepted, Matches, RecordsConsistent, SameTrust, Sound;
  }

  lemma MigrateProgress(s: State, node: Node, legacy: PublicKey, previous: Option<TrustSet>, next: TrustSet, now: int64)
    requires Inv(s)
    ensures Progress(s, MigrateTrust(s, node, legacy, previous, next, now).state)
  {
    hide Inv, MigrateTrust, Progress, RunningKept, Remembers;
    MigrateKeepsInv(s, node, legacy, previous, next, now);
    MigrateKeepsClock(s, node, legacy, previous, next, now);
    SameRowsProgress(s, MigrateTrust(s, node, legacy, previous, next, now).state);
  }

  lemma MigrateKeepsGood(
      w: World, node: Node, legacy: PublicKey, previous: Option<TrustSet>, next: TrustSet, now: int64)
    requires Good(w) && w.worker.None?
    ensures Good(Apply(w, Migrate(node, legacy, previous, next, now)))
  {
    hide Good, Inv, MigrateTrust, Progress, RunningKept;
    NoWorkerNoFlight(w);
    MigrateProgress(w.state, node, legacy, previous, next, now);
    var w' := w.(state := MigrateTrust(w.state, node, legacy, previous, next, now).state);
    assert w' == Apply(w, Migrate(node, legacy, previous, next, now));
    hide Apply;
    ProgressKeepsGood(w, w');
  }

  lemma StartIsGood(node: Node, binding: Binding, now: int64)
    ensures Good(Start(node, binding, now))
  {
    InitialInv(node, binding, now);
    hide Inv;
  }

  lemma {:induction false} RunIsGood(node: Node, binding: Binding, now: int64, steps: seq<Step>)
    ensures Good(After(Start(node, binding, now), steps))
  {
    hide Good, Apply, Start;
    if steps == [] {
      StartIsGood(node, binding, now);
    } else {
      RunIsGood(node, binding, now, steps[..|steps| - 1]);
      ApplyKeepsGood(After(Start(node, binding, now), steps[..|steps| - 1]), steps[|steps| - 1]);
    }
  }

  // ---- The theorems ----

  /** Over every run, each request enters the collector at most once, is decided at most once, and all
      successful answers for it are the same bytes. */
  lemma AtMostOnce(node: Node, binding: Binding, now: int64, steps: seq<Step>)
    ensures var w := After(Start(node, binding, now), steps);
            && Distinct(w.entered)
            && UniqueDecisions(w.state.audit)
            && (forall a, b :: a in w.replies && b in w.replies && a.request == b.request ==> a.text == b.text)
  {
    RunIsGood(node, binding, now, steps);
    hide After, Start;
  }

  /** Over every run, the reserved audit slots are the running rows, at most one, and the store the worker
      left behind is never refused: recovery fails only for another identity or verifier or because of the clock,
      and the records pass the migration checks exactly when nothing is running. */
  lemma StoreAcceptsItself(
      node: Node, binding: Binding, now: int64, steps: seq<Step>, again: Node, verifier: Binding, later: int64)
    ensures var s := After(Start(node, binding, now), steps).state;
            && s.audit.reserved == Sum(s.rows, RunningWeight()) <= 1
            && (Recover(s, again, verifier, later).result.Ok? <==>
                 again == s.node && Matches(s.binding, verifier) && Clock(s, later).ClockRuns?)
            && (RecordsConsistent(s) <==> FindRunning(s.rows).None?)
  {
    RunIsGood(node, binding, now, steps);
    var s := After(Start(node, binding, now), steps).state;
    assert Inv(s);
    hide After, Start, Inv, Recover, RecordsConsistent, Clock, Matches;
    InvCounts(s);
    RecoverAccepts(s, again, verifier, later);
    MigrationAcceptsIffIdle(s);
  }

  /** Number of executions admitted in the half-open window [from, from + length). */
  function CountIn(admissions: seq<Admission>, from: int, length: nat): nat {
    if admissions == [] then 0
    else
      var n := |admissions| - 1;
      CountIn(admissions[..n], from, length) + if from <= admissions[n].atMs < from + length then 1 else 0
  }

  lemma {:induction false} WindowWithinCount(admissions: seq<Admission>, from: int, length: nat, ms: int)
    requires ms < from
    ensures CountIn(admissions, from, length) <= CountAfter(admissions, ms)
  {
    if admissions != [] { WindowWithinCount(admissions[..|admissions| - 1], from, length, ms); }
  }

  lemma {:induction false} WindowEndsAt(admissions: seq<Admission>, last: nat, from: int, length: nat)
    requires last < |admissions|
             && forall i :: last < i < |admissions| ==> !(from <= admissions[i].atMs < from + length)
    ensures CountIn(admissions, from, length) == CountIn(admissions[..last + 1], from, length)
  {
    var n := |admissions| - 1;
    if last < n {
      WindowEndsAt(admissions[..n], last, from, length);
      assert admissions[..n][..last + 1] == admissions[..last + 1];
    } else {
      assert admissions[..last + 1] == admissions;
    }
  }

  /** Over every run, whatever was pruned and however the clock stepped, the executions admitted in any
      60-second window number at most the per-minute limit of the policy used by the last of them, and
      those in any one-second window at most its burst limit. */
  lemma RateLimited(node: Node, binding: Binding, now: int64, steps: seq<Step>, last: nat, from: int)
    requires last < |After(Start(node, binding, now), steps).admissions|
    ensures var all := After(Start(node, binding, now), steps).admissions;
            && ((from <= all[last].atMs < from + MINUTE_MS
                 && forall i :: last < i < |all| ==> !(from <= all[i].atMs < from + MINUTE_MS)) ==>
                  CountIn(all, from, MINUTE_MS) <= all[last].policy.maxPerMinute)
            && ((from <= all[last].atMs < from + SECOND_MS
                 && forall i :: last < i < |all| ==> !(from <= all[i].atMs < from + SECOND_MS)) ==>
                  CountIn(all, from, SECOND_MS) <= all[last].policy.burst)
  {
    RunIsGood(node, binding, now, steps);
    hide After, Start, Inv;
    var all := After(Start(node, binding, now), steps).admissions;
    assert WithinRate(all, last);
    if from <= all[last].atMs < from + MINUTE_MS
       && forall i :: last < i < |all| ==> !(from <= all[i].atMs < from + MINUTE_MS) {
      WindowEndsAt(all, last, from, MINUTE_MS);
      WindowWithinCount(all[..last + 1], from, MINUTE_MS, all[last].atMs - MINUTE_MS);
    }
    if from <= all[last].atMs < from + SECOND_MS
       && forall i :: last < i < |all| ==> !(from <= all[i].atMs < from + SECOND_MS) {
      WindowEndsAt(all, last, from, SECOND_MS);
      WindowWithinCount(all[..last + 1], from, SECOND_MS, all[last].atMs - SECOND_MS);
    }
  }

  // ---- The result budget under one policy ----

  /** Undelivered bytes, plus a full result for an execution in progress, fit the policy's budget. */
  predicate Budget(s: State, p: Policy) {
    Sum(s.rows, PendingWeight()) + (if FindRunning(s.rows).Some? then p.maxResultBytes else 0) <= p.pendingBytes
  }

  predicate UsesPolicy(step: Step, p: Policy) {
    match step
    case CheckReady(q, _) => q == p
    case Receive(_, loaded, _, _, _) => loaded == None || loaded == Some(p)
    case _ => true
  }

  ghost predicate Budgeted(w: World, p: Policy) {
    Budget(w.state, p) && (w.flight.Some? ==> w.flight.value.policy == p)
  }

  lemma PruneKeepsBudget(s: State, s': State, p: Policy, now: int64)
    requires Budget(s, p) && ValidPolicy(p) && s'.rows == Prune(s.rows, now)
    ensures Budget(s', p)
  {
    SumPrune(s.rows, now, PendingWeight());
    if FindRunning(s'.rows).Some? {
      assert s'.rows[FindRunning(s'.rows).value] in s.rows;
    }
  }

  lemma ReadyKeepsBudget(s: State, v: Binding, p: Policy, now: int64)
    requires Inv(s) && Budget(s, p) && ValidPolicy(p)
    ensures Budget(Ready(s, v, p, now).state, p)
  {
    hide Inv, Budget, Clock, UsePolicy, Capacity, ValidPolicy;
    var s' := Ready(s, v, p, now).state;
    if s' != s {
      ClockKeepsInv(s, now);
      var s1 := Clock(s, now).state;
      if Clock(s, now).ClockStops? {
        SameRowsBudget(s, s', p);
      } else {
        PolicyKeepsInv(s1, p.digest);
        CapacityKeepsInv(UsePolicy(s1, p.digest).value, p, now);
        PruneKeepsBudget(s, s', p, now);
      }
    }
  }

  lemma SameRowsBudget(s: State, s': State, p: Policy)
    requires Budget(s, p) && s'.rows == s.rows
    ensures Budget(s', p)
  {
  }

  lemma AdmitKeepsBudget(s: State, t: Task, payload: Payload, p: Policy, nowMs: int64)
    requires Inv(s) && ValidPolicy(p) && DecodeTask(payload) == Some(t) && Seconds(nowMs) > 0
             && Admit(s, t, payload, p, nowMs).Ok?
    ensures Budget(Admit(s, t, payload, p, nowMs).value.0, p)
  {
    hide Inv, Record;
    var now := Seconds(nowMs);
    PolicyKeepsInv(s, p.digest);
    var s1 := UsePolicy(s, p.digest).value;
    CapacityKeepsInv(s1, p, now);
    var s2 := Capacity(s1, p, now).value;
    var (status, code) :=
      Judge(t, p, now, Sum(s2.rows, ExecutedAfter(nowMs - MINUTE_MS)), Sum(s2.rows, ExecutedAfter(nowMs - SECOND_MS)));
    var row := JudgedRow(t, payload, p, nowMs, status, code);
    JudgedSize(t, payload, p, nowMs, Sum(s2.rows, ExecutedAfter(nowMs - MINUTE_MS)),
        Sum(s2.rows, ExecutedAfter(nowMs - SECOND_MS)));
    hide UsePolicy, Judge, JudgedRow;
    InsertKeepsBudget(s2, Admit(s, t, payload, p, nowMs).value.0, row, p);
  }

  lemma JudgedSize(t: Task, payload: Payload, p: Policy, nowMs: int64, minute: nat, burst: nat)
    requires ValidPolicy(p) && ValidTask(t) && Seconds(nowMs) > 0
    ensures var (status, code) := Judge(t, p, Seconds(nowMs), minute, burst);
            var row := JudgedRow(t, payload, p, nowMs, status, code);
            if row.state.Running? then PendingWeight()(row) == 0 else PendingWeight()(row) <= p.maxResultBytes
  {
    var (status, code) := Judge(t, p, Seconds(nowMs), minute, burst);
    if !status.Running? {
      FailureResultsAreSmall(EmptyResult(t, p.digest, Seconds(nowMs), Seconds(nowMs), status, code));
    }
    hide EncodedSize;
  }

  lemma InsertKeepsBudget(s: State, s': State, row: Row, p: Policy)
    requires s'.rows == s.rows + [row] && FindRunning(s.rows).None?
             && Sum(s.rows, PendingWeight()) + p.maxResultBytes <= p.pendingBytes
    requires if row.state.Running? then PendingWeight()(row) == 0 else PendingWeight()(row) <= p.maxResultBytes
    ensures Budget(s', p)
  {
    SumAppend(s.rows, row, PendingWeight());
    assert s'.rows[..|s.rows|] == s.rows;
  }

  lemma PrepareKeepsBudget(
      s: State, v: Binding, t: Task, payload: Payload, p: Policy, nowMs: int64, keyId: KeyId, checkedAt: int64)
    requires Inv(s) && Budget(s, p) && ValidPolicy(p) && DecodeTask(payload) == Some(t)
    ensures Budget(Prepare(s, v, t, payload, p, nowMs, keyId, checkedAt).state, p)
  {
    hide Inv, Admit, Clock, ValidPolicy, CheckTask, Budget;
    var now := Seconds(nowMs);
    var s' := Prepare(s, v, t, payload, p, nowMs, keyId, checkedAt).state;
    if s' != s {
      ClockKeepsInv(s, now);
      var s1 := Clock(s, now).state;
      if Clock(s, now).ClockStops? || Find(s1.rows, t.request).Some? {
        if Clock(s, now).ClockRuns? { ConflictKeepsInv(s1, t, payload, s1.rows[Find(s1.rows, t.request).value]); }
        SameRowsBudget(s, s', p);
      } else {
        AdmitKeepsBudget(s1, t, payload, p, nowMs);
      }
    }
  }

  lemma FinishKeepsBudget(s: State, s': State, i: nat, r: TaskResult, p: Policy)
    requires Inv(s) && Budget(s, p) && i < |s.rows| && s.rows[i].state.Running? && !r.status.Running?
    requires s'.rows == s.rows[i := FinishedRow(s.rows[i], r)] && EncodedSize(r) <= p.maxResultBytes
    ensures Budget(s', p)
  {
    assert s.rows[i] in s.rows && RowOk(s.node, s.rows[i]);
    OneRunning(s, i, FinishedRow(s.rows[i], r));
    hide Inv, RowOk, EncodedSize;
    SumUpdate(s.rows, i, FinishedRow(s.rows[i], r), PendingWeight());
  }

  lemma RecoveredKeepsBudget(s: State, s1: State, node: Node, v: Binding, p: Policy, now: int64)
    requires Inv(s1) && Budget(s1, p) && ValidPolicy(p) && Clock(s, now) == ClockRuns(s1) && FindRunning(s1.rows).Some?
    requires Recover(s, node, v, now).result.Ok?
    ensures Budget(Recover(s, node, v, now).state, p)
  {
    hide Recover, Clock, FinishTx, Budget;
    RecoverShape(s, s1, node, v, now);
    var i := FindRunning(s1.rows).value;
    var row := s1.rows[i];
    assert row in s1.rows;
    InterruptedResultOk(s1.node, row, now);
    var t := DecodeTask(row.payload).value;
    var r := InterruptedResult(t, row, now);
    assert !r.status.Running?;
    hide Inv, RowOk, DecodeTask, InterruptedResult, ValidResult, CheckAssignment, EncodedSize;
    FinishKeepsInv(s1, i, r, TaskRecovered);
    FinishKeepsBudget(s1, Recover(s, node, v, now).state, i, r, p);
  }

  /** Opening either fails, or moves the clock and recovers an interrupted execution. */
  lemma RecoverCases(s: State, node: Node, v: Binding, now: int64)
    ensures var tx := Recover(s, node, v, now);
            || tx.state == s
            || (!Clock(s, now).ClockInvalid? && tx.state == Clock(s, now).state)
            || (Clock(s, now).ClockRuns? && FindRunning(Clock(s, now).state.rows).Some? && tx.result.Ok?)
  {
    hide Clock, Matches, FinishTx, InterruptedResult, Sum, DecodeTask;
  }

  lemma OpenKeepsBudget(s: State, node: Node, v: Binding, p: Policy, now: int64)
    requires Inv(s) && Budget(s, p) && ValidPolicy(p)
    ensures Budget(Recover(s, node, v, now).state, p)
  {
    hide Inv, Budget, ValidPolicy, Recover, Clock;
    RecoverCases(s, node, v, now);
    var s' := Recover(s, node, v, now).state;
    if s' != s {
      ClockKeepsInv(s, now);
      var s1 := Clock(s, now).state;
      SameRowsBudget(s, s1, p);
      if s' != s1 { RecoveredKeepsBudget(s, s1, node, v, p, now); }
    }
  }

  lemma CompleteKeepsBudget(w: World, p: Policy, outcome: Outcome, now: int64)
    requires Good(w) && Budgeted(w, p) && w.flight.Some?
    ensures Budget(Finish(w.state, w.flight.value.task, FlightResult(w.flight.value, outcome, now)).state, p)
  {
    var f, s := w.flight.value, w.state;
    var r := FlightResult(f, outcome, now);
    var row :| row in s.rows && FlightRow(f, row);
    var i :| 0 <= i < |s.rows| && s.rows[i] == row;
    assert RowOk(s.node, row);
    NormalisedResultFits(f.task, f.startedAt, f.phase.TooLate?, outcome, now, f.policy);
    assert !r.status.Running?;
    hide FlightResult, Inv, RowOk, FinishTx, EncodedSize, ValidResult, CheckAssignment;
    FinishKeepsInv(s, i, r, TaskCompleted);
    FinishKeepsBudget(s, Finish(s, f.task, r).state, i, r, p);
  }

  lemma DeliverKeepsBudget(s: State, p: Policy, request: string, digest: Sha256<ResultText>)
    requires Budget(s, p) && ValidPolicy(p)
    ensures Budget(Acknowledge(s, request, digest).state, p)
  {
    match Find(s.rows, request)
    case None =>
    case Some(i) =>
      var s' := Acknowledge(s, request, digest).state;
      if s' != s {
        var row := s.rows[i].(delivered := true);
        SumUpdate(s.rows, i, row, PendingWeight());
        if FindRunning(s'.rows).Some? {
          var j := FindRunning(s'.rows).value;
          assert s.rows[j].state.Running?;
        }
      }
  }

  lemma ReceiveKeepsBudget(
      w: World, p: Policy, e: Envelope, q: Option<Policy>, verifiedAt: int64, nowMs: int64, checkedAt: int64)
    requires Inv(w.state) && Budgeted(w, p) && ValidPolicy(p) && (q == None || q == Some(p))
    ensures Budgeted(Apply(w, Receive(e, q, verifiedAt, nowMs, checkedAt)), p)
  {
    hide Inv, Budget, ValidPolicy, Prepare, RejectInvalid, Check;
    var s := w.state;
    RejectInvalidKeepsInv(s);
    SameRowsBudget(s, RejectInvalid(s).state, p);
    if w.worker.Some? {
      var v := Check(e, w.worker.value, verifiedAt);
      if ForNode(s, v) && q.Some? {
        PrepareKeepsBudget(s, w.worker.value, v.value.task, v.value.payload, p, nowMs, v.value.keyId, checkedAt);
      }
    }
  }

  lemma ApplyKeepsBudget(w: World, step: Step, p: Policy)
    requires Good(w) && Budgeted(w, p) && ValidPolicy(p) && UsesPolicy(step, p)
    ensures Budgeted(Apply(w, step), p)
  {
    var s := w.state;
    assert Inv(s);
    hide Good, Inv, Budget, ValidPolicy, Prepare, Ready, Recover, Finish, Acknowledge, MigrateTrust;
    match step
    case Open(node, v, now) => OpenKeepsBudget(s, node, v, p, now);
    case CheckReady(q, now) => if w.worker.Some? { ReadyKeepsBudget(s, w.worker.value, p, now); }
    case Receive(e, q, verifiedAt, nowMs, checkedAt) => ReceiveKeepsBudget(w, p, e, q, verifiedAt, nowMs, checkedAt);
    case Complete(outcome, now) => if w.flight.Some? { CompleteKeepsBudget(w, p, outcome, now); }
    case Deliver(request, digest) => DeliverKeepsBudget(s, p, request, digest);
    case Migrate(node, legacy, previous, next, now) =>
      MigrateKeepsInv(s, node, legacy, previous, next, now);
      SameRowsBudget(s, MigrateTrust(s, node, legacy, previous, next, now).state, p);
    case _ =>
  }

  /** Over every run that uses one valid policy, undelivered result bytes plus one full result for an
      execution in progress never exceed the policy's pending budget. */
  lemma {:induction false} ResultBudgetHolds(node: Node, binding: Binding, now: int64, steps: seq<Step>, p: Policy)
    requires ValidPolicy(p) && forall i :: 0 <= i < |steps| ==> UsesPolicy(steps[i], p)
    ensures Budgeted(After(Start(node, binding, now), steps), p)
  {
    hide Good, Budgeted, Apply, UsesPolicy, ValidPolicy;
    var n := |steps| - 1;
    if steps == [] {
      InitialBudget(node, binding, now, p);
    } else {
      ResultBudgetHolds(node, binding, now, steps[..n], p);
      RunIsGood(node, binding, now, steps[..n]);
      ApplyKeepsBudget(After(Start(node, binding, now), steps[..n]), steps[n], p);
    }
  }

  lemma InitialBudget(node: Node, binding: Binding, now: int64, p: Policy)
    requires ValidPolicy(p)
    ensures Budgeted(Start(node, binding, now), p)
  {
  }
}
