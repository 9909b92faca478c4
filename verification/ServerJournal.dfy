/** The audit log says of every task what became of it: over every run, the events of a task and the state of its row
    tell the same story (internal/state/tasks.go, internal/audit/audit.go). */
module ServerJournal {
  import opened Core
  import opened Tables
  import opened Protocol
  import opened Ledgers
  import opened Trust
  import opened Envelope
  import opened ServerState
  import opened ServerInvariants
  import opened ServerTransactions
  import opened ServerAccounts
  import opened ServerRuns

  // ---- What events and rows say ----

  function Count(events: seq<Event>, e: Event): nat {
    if events == [] then 0
    else Count(events[..|events| - 1], e) + if events[|events| - 1] == e then 1 else 0
  }

  predicate OfTasks(kind: Kind) {
    kind in {TaskQueued, TaskDispatched, TaskExpired, TaskCancelled, ResultReceived}
  }

  /** The row shows that this happened to its task. */
  predicate Shows(r: TaskRow, kind: Kind) {
    match kind
    case TaskQueued => true
    case TaskDispatched => r.envelope.Some?
    case TaskExpired => r.closing == ExpiredBeforeDispatch
    case TaskCancelled => r.closing == NodeWasDisabled || r.closing == SignerChanged
    case ResultReceived => r.closing.Reported?
    case _ => false
  }

  function Shown(e: Event): TaskRow -> nat {
    (r: TaskRow) => if r.request == e.subject && Shows(r, e.kind) then 1 else 0
  }

  /** An open task has no reason to be closed yet, and one that waits has no envelope. */
  predicate Plain(r: TaskRow) {
    (r.closing.StillOpen? <==> !r.state.Terminal?) && (r.state.Queued? ==> r.envelope.None?)
  }

  predicate AllPlain(tasks: seq<TaskRow>) {
    forall i :: 0 <= i < |tasks| ==> Plain(tasks[i])
  }

  /** Every event of a task is in the log as often as the rows show it. */
  ghost predicate Told(db: Db) {
    AllPlain(db.tasks)
    && forall e: Event :: OfTasks(e.kind) ==> Count(db.ledger.events, e) == Sum(db.tasks, Shown(e))
  }

  lemma CountAppend(events: seq<Event>, x: Event, e: Event)
    ensures Count(events + [x], e) == Count(events, e) + if x == e then 1 else 0
  {
    assert (events + [x])[..|events|] == events;
  }

  // ---- One event at a time ----

  lemma OtherEvent(db: Db, db': Db, x: Event)
    requires Told(db) && !OfTasks(x.kind) && db'.tasks == db.tasks && db'.ledger.events == db.ledger.events + [x]
    ensures Told(db')
  {
    hide Sum, Count;
    forall e: Event | OfTasks(e.kind) ensures Count(db'.ledger.events, e) == Sum(db'.tasks, Shown(e)) {
      CountAppend(db.ledger.events, x, e);
    }
  }

  lemma SameTold(db: Db, db': Db)
    requires Told(db) && db'.tasks == db.tasks && db'.ledger.events == db.ledger.events
    ensures Told(db')
  {
  }

  lemma NoteTold(db: Db, kind: Kind, subject: string, delta: int)
    requires Told(db) && !OfTasks(kind)
    ensures Note(db, kind, subject, delta).Ok? ==> Told(Note(db, kind, subject, delta).value)
  {
    hide Told;
    if Note(db, kind, subject, delta).Ok? {
      OtherEvent(db, Note(db, kind, subject, delta).value, Event(kind, subject));
    }
  }

  /** One row changes by what one event says. */
  lemma RowTold(db: Db, db': Db, i: nat, r': TaskRow, kind: Kind)
    requires Told(db) && i < |db.tasks| && db'.tasks == db.tasks[i := r'] && Plain(r')
    requires db'.ledger.events == db.ledger.events + [Event(kind, db.tasks[i].request)]
    requires r'.request == db.tasks[i].request && !Shows(db.tasks[i], kind) && OfTasks(kind)
    requires forall k: Kind :: OfTasks(k) ==> (Shows(r', k) <==> Shows(db.tasks[i], k) || k == kind)
    ensures Told(db')
  {
    hide Sum, Count, Plain, Shows;
    var x := Event(kind, db.tasks[i].request);
    forall e: Event | OfTasks(e.kind) ensures Count(db'.ledger.events, e) == Sum(db'.tasks, Shown(e)) {
      CountAppend(db.ledger.events, x, e);
      SumUpdate(db.tasks, i, r', Shown(e));
      assert Shown(e)(r') == Shown(e)(db.tasks[i]) + if x == e then 1 else 0;
    }
  }

  lemma InsertTold(db: Db, t: Task)
    requires Told(db)
    ensures InsertTask(db, t).Ok? ==> Told(InsertTask(db, t).value)
  {
    hide Told, FindTask;
    if InsertTask(db, t).Ok? { AddedTold(db, InsertTask(db, t).value, QueuedRow(t)); }
  }

  lemma AddedTold(db: Db, db': Db, r: TaskRow)
    requires Told(db) && Plain(r) && db'.tasks == db.tasks + [r]
             && db'.ledger.events == db.ledger.events + [Event(TaskQueued, r.request)]
    requires forall k: Kind :: OfTasks(k) ==> (Shows(r, k) <==> k == TaskQueued)
    ensures Told(db')
  {
    hide Sum, Count, Plain, Shows;
    forall e: Event | OfTasks(e.kind) ensures Count(db'.ledger.events, e) == Sum(db'.tasks, Shown(e)) {
      CountAppend(db.ledger.events, Event(TaskQueued, r.request), e);
      SumAppend(db.tasks, r, Shown(e));
    }
  }

  // ---- Loops ----

  lemma {:induction false} TryCloseTold(db: Db, c: Sweep, n: nat)
    requires Told(db) && n <= |db.tasks|
    ensures TryClose(db, c, n).Ok? ==> Told(TryClose(db, c, n).value)
  {
    hide Told, DecodeTask, SlotsOf, Picks, Swept;
    if n > 0 && TryClose(db, c, n).Ok? {
      TryCloseTold(db, c, n - 1);
      var tx := TryClose(db, c, n - 1).value;
      if Picks(c, tx.tasks[n - 1]) { SweptTold(tx, TryClose(db, c, n).value, c, n - 1); }
    }
  }

  lemma SweptTold(db: Db, db': Db, c: Sweep, i: nat)
    requires Told(db) && i < |db.tasks| && Picks(c, db.tasks[i]) && db'.tasks == db.tasks[i := Swept(c, db.tasks[i])]
             && db'.ledger.events == db.ledger.events + [SweepEvent(c, db.tasks[i])]
    ensures Told(db')
  {
    var row := db.tasks[i];
    assert Plain(row);
    hide Told;
    RowTold(db, db', i, Swept(c, row), if c.ExpireQueued? then TaskExpired else TaskCancelled);
  }

  lemma CloseTold(db: Db, c: Sweep)
    requires Told(db)
    ensures CloseTx(db, c).Ok? ==> Told(CloseTx(db, c).value)
  {
    hide Told, TryClose;
    TryCloseTold(db, c, |db.tasks|);
  }

  lemma {:induction false} TryEndCounts(db: Db, e: Ending, n: nat, x: Event)
    requires n <= |db.sessions| && OfTasks(x.kind)
    ensures TryEnd(db, e, n).Ok? ==> Count(TryEnd(db, e, n).value.1.events, x) == Count(db.ledger.events, x)
  {
    hide Count, Ends;
    if n > 0 && TryEnd(db, e, n).Ok? {
      TryEndCounts(db, e, n - 1, x);
      CountAppend(TryEnd(db, e, n - 1).value.1.events, EndingEvent(e, db.sessions[n - 1]), x);
    }
  }

  lemma EndTold(db: Db, e: Ending)
    requires Told(db)
    ensures EndTx(db, e).Ok? ==> Told(EndTx(db, e).value)
  {
    hide Count, Sum, TryEnd, Plain;
    forall x: Event | OfTasks(x.kind)
      ensures EndTx(db, e).Ok? ==> Count(EndTx(db, e).value.ledger.events, x) == Count(db.ledger.events, x) {
      TryEndCounts(db, e, |db.sessions|, x);
    }
  }

  // ---- Operations ----

  lemma DisableAtTold(db: Db, i: nat)
    requires Told(db) && i < |db.nodes|
    ensures DisableAt(db, i).Ok? ==> Told(DisableAt(db, i).value)
  {
    hide Told, CloseTx, Note;
    var db1 := db.(nodes := db.nodes[i := db.nodes[i].(enabled := false)]);
    var c := CancelNode(db.nodes[i].agent);
    SameTold(db, db1);
    CloseTold(db1, c);
    if CloseTx(db1, c).Ok? { NoteTold(CloseTx(db1, c).value, NodeDisabled, db.nodes[i].agent, -1); }
  }

  lemma DisableTold(db: Db, agent: string)
    requires Told(db)
    ensures DisableTx(db, agent).Ok? ==> Told(DisableTx(db, agent).value)
  {
    hide Told, DisableAt, Hex, FindNode, Note;
    match FindNode(db.nodes, agent)
    case None =>
    case Some(i) =>
      DisableAtTold(db, i);
      NoteTold(db, DisableUnchanged, agent, 0);
  }

  lemma {:induction false} DisableAllTold(db: Db, n: nat)
    requires Told(db)
    ensures DisableAll(db, n).Ok? ==> Told(DisableAll(db, n).value)
    decreases n
  {
    hide Told, DisableAt, FirstEnabled;
    if n > 0 && FirstEnabled(db.nodes).Some? {
      var i := FirstEnabled(db.nodes).value;
      DisableAtTold(db, i);
      if DisableAt(db, i).Ok? { DisableAllTold(DisableAt(db, i).value, n - 1); }
    }
  }

  lemma EnqueueTold(db: Db, o: Order, at: Times)
    requires Told(db)
    ensures EnqueueTx(db, o, at).Ok? ==> Told(EnqueueTx(db, o, at).value)
  {
    hide Told, CloseTx, Hex, FindNode, InsertTask, Sum, CheckTask, ValidTask, SettingsOk, RecentlyReady, Wrap64;
    var c := ExpireQueued(o.agent, at.first);
    CloseTold(db, c);
    if CloseTx(db, c).Ok? && FindNode(db.nodes, o.agent).Some? {
      InsertTold(CloseTx(db, c).value, NewTask(o, db.nodes[FindNode(db.nodes, o.agent).value], at.second));
    }
  }

  lemma DeliverTold(db: Db, i: nat, key: PublicKey, now: int64)
    requires Told(db) && i < |db.tasks| && !db.tasks[i].state.Terminal?
    ensures Deliver(db, i, key, now).Ok? ==> Told(Deliver(db, i, key, now).value.0)
  {
    assert Plain(db.tasks[i]);
    hide Told, SignTask, EnvelopeVerifies, DecodeTask;
    if db.tasks[i].state.Queued? && Deliver(db, i, key, now).Ok? {
      var (db', e) := Deliver(db, i, key, now).value;
      RowTold(db, db', i, db.tasks[i].(state := Dispatched, envelope := Some(e)), TaskDispatched);
    }
  }

  lemma PollTold(
      db: Db, agent: string, epoch: string, credential: bool, digest: string, key: PublicKey, at: Times)
    requires Told(db)
    ensures Told(Poll(db, agent, epoch, credential, digest, key, at).db)
  {
    hide Told, CloseTx, Hex, IsEnabled, SettingsOk, Next, Deliver;
    var c := ExpireQueued(agent, at.first);
    CloseTold(db, c);
    if CloseTx(db, c).Ok? {
      var db1 := CloseTx(db, c).value;
      match Next(db1.tasks, agent, epoch, at.second)
      case None =>
      case Some(i) => DeliverTold(db1, i, key, at.third);
    }
  }

  lemma ReportTold(db: Db, i: nat, data: ResultText, r: TaskResult)
    requires Told(db) && i < |db.tasks| && db.tasks[i].state.Dispatched? && r.request == db.tasks[i].request
    ensures ReportAt(db, i, data, r).Ok? ==> Told(ReportAt(db, i, data, r).value)
  {
    assert Plain(db.tasks[i]);
    hide Told;
    if ReportAt(db, i, data, r).Ok? {
      RowTold(db, ReportAt(db, i, data, r).value, i,
              db.tasks[i].(state := Terminal(r.status), result := Some(data), closing := Reported(r.code)),
              ResultReceived);
    }
  }

  lemma SubmitTold(db: Db, agent: string, epoch: string, credential: bool, data: ResultText)
    requires Told(db)
    ensures Told(SubmitResult(db, agent, epoch, credential, data).db)
  {
    hide Told, IsEnabled, ResultError, TextSize, FindTask, DecodeResult, ReportAt;
    match DecodeResult(data)
    case None =>
    case Some(r) =>
      match FindTask(db.tasks, r.request)
      case None =>
      case Some(i) => if db.tasks[i].state.Dispatched? { ReportTold(db, i, data, r); }
  }

  lemma IssueTold(db: Db, token: string, ttl: int, nanos: int, actor: string)
    requires Told(db)
    ensures IssueTokenTx(db, token, ttl, nanos, actor).Ok? ==>
              Told(IssueTokenTx(db, token, ttl, nanos, actor).value)
  {
    hide Told, LiveTokens, Wrap64, Note;
    var live := LiveTokens(db.tokens, Wrap64(nanos / NANOS));
    var db1 := db.(tokens := live + [TokenRow(Sha256(token), Wrap64((nanos + ttl) / NANOS), false)]);
    SameTold(db, db1);
    NoteTold(db1, TokenIssued, actor, 0);
  }

  lemma PerformTold(db: Db, s: SessionRow, op: Operation, at: Times)
    requires Told(db)
    ensures Perform(db, s, op, at).Ok? ==> Told(Perform(db, s, op, at).value)
  {
    hide Told, EnqueueTx, DisableTx, EndTx, IssueTokenTx, FindUser, Note;
    match op
    case Read(_) => NoteTold(db, RecordsRead, s.user, 0);
    case IssueToken(token, ttl, nanos) => IssueTold(db, token, ttl, nanos, s.user);
    case Submit(o) => EnqueueTold(db, o.(actor := s.user), at);
    case DisableNode(agent) => DisableTold(db, agent);
    case Logout => EndTold(db, LoggedOut(s.id));
    case RevokeOwn =>
      EndTold(db, UserRevoked(s.user));
      if Perform(db, s, op, at).Ok? { SameTold(EndTx(db, UserRevoked(s.user)).value, Perform(db, s, op, at).value); }
  }

  lemma ManageTold(db: Db, token: string, op: Operation, at: Times)
    requires Told(db)
    ensures Told(Manage(db, token, op, at).db)
  {
    hide Told, Perform, EndTx, Authorize, FindUser, Privileged, Note;
    if AdminClock(db, at.first).Ok? {
      var db0 := AdminClock(db, at.first).value;
      SameTold(db, db0);
      EndTold(db0, Stale(at.first));
      if EndTx(db0, Stale(at.first)).Ok? {
        var db1 := EndTx(db0, Stale(at.first)).value;
        match Authorize(db1, token, at.first)
        case None =>
        case Some(i) =>
          var s := db1.sessions[i];
          NoteTold(db1, AdminDenied, s.user, 0);
          NoteTold(db1, AdminRejected, s.user, 0);
          PerformTold(db1, s, op, at);
          if Perform(db1, s, op, at).Ok? {
            TouchTold(Perform(db1, s, op, at).value, token, at.first);
          }
      }
    }
  }

  lemma TouchTold(db: Db, token: string, now: int64)
    requires Told(db)
    ensures Told(Touch(db, token, now))
  {
    hide Told, FindToken;
    SameTold(db, Touch(db, token, now));
  }

  lemma StartLoginTold(db: Db, name: string, budget: Budget, now: int64)
    requires Told(db)
    ensures Told(StartLogin(db, name, budget, now).db)
  {
    hide Told, FindName, Note;
    if AdminClock(db, now).Ok? {
      var db1 := AdminClock(db, now).value;
      SameTold(db, db1);
      NoteTold(db1, LoginLimited, "", 0);
      NoteTold(db1, LoginAttempted, "", 0);
    }
  }

  lemma FinishLoginTold(db: Db, attempt: Attempt, matched: bool, id: string, token: string, now: int64)
    requires Told(db)
    ensures Told(FinishLogin(db, attempt, matched, id, token, now).db)
  {
    hide Told, EndTx, StillCurrent, FreshSession, Sum, Wrap64, Note;
    if AdminClock(db, now).Ok? {
      var db1 := AdminClock(db, now).value;
      SameTold(db, db1);
      NoteTold(db1, LoginFailed, "", 0);
      EndTold(db1, Stale(now));
      if attempt.Some? && EndTx(db1, Stale(now)).Ok? {
        var db2 := EndTx(db1, Stale(now)).value;
        var u := attempt.value;
        NoteTold(db2, LoginFailed, u.id, 0);
        var db3 := db2.(sessions := db2.sessions + [SessionRow(id, Sha256(token), u.id, now, now,
                                                               Wrap64(now + SESSION_LIFETIME))]);
        SameTold(db2, db3);
        NoteTold(db3, LoginSucceeded, u.id, 1);
      }
    }
  }

  lemma DropAllTold(db: Db, kind: Kind)
    requires Told(db) && !OfTasks(kind)
    ensures DropAll(db, kind).Ok? ==> Told(DropAll(db, kind).value)
  {
    hide Told, Bumped, Note;
    var db1 := db.(sessions := [], users := Bumped(db.users));
    SameTold(db, db1);
    NoteTold(db1, kind, "", -|db.sessions|);
  }

  lemma QuarantineTold(db: Db)
    requires Told(db)
    ensures Told(QuarantineRestore(db).db)
  {
    hide Told, DisableAll, Consumed, DropAll;
    DisableAllTold(db, |db.nodes|);
    if DisableAll(db, |db.nodes|).Ok? {
      var db1 := DisableAll(db, |db.nodes|).value;
      var db2 := db1.(tokens := Consumed(db1.tokens));
      SameTold(db1, db2);
      DropAllTold(db2, RestoreQuarantined);
    }
  }

  /** An operation that leaves the tasks and appends one event of another kind, or none. */
  predicate Aside(db: Db, db': Db) {
    db'.tasks == db.tasks
    && (db'.ledger.events == db.ledger.events
        || (db'.ledger.events != [] && db'.ledger.events[..|db'.ledger.events| - 1] == db.ledger.events
            && !OfTasks(db'.ledger.events[|db'.ledger.events| - 1].kind)))
  }

  lemma AsideTold(db: Db, db': Db)
    requires Told(db) && Aside(db, db')
    ensures Told(db')
  {
    hide Told;
    if db'.ledger.events == db.ledger.events {
      SameTold(db, db');
    } else {
      var n := |db'.ledger.events| - 1;
      assert db'.ledger.events == db'.ledger.events[..n] + [db'.ledger.events[n]];
      OtherEvent(db, db', db'.ledger.events[n]);
    }
  }

  lemma InstallAside(db: Db, expected: Baseline, next: TrustSet, at: Times)
    ensures Aside(db, InstallTrust(db, expected, next, at).db)
  {
    hide SettingsOk, Valid, SameTrust, Accepted, AllLiveVerify, MatchesBaseline, Sound, Ids;
  }

  lemma SwitchAside(db: Db, id: KeyId, now: int64)
    ensures Aside(db, SwitchSigner(db, id, now).db)
  {
    hide SettingsOk, InWindow, NoneQueued;
  }

  lemma SettingsAside(w: World, op: Op, at: Times)
    requires op.Configure? || op.Pause? || op.Install? || op.Switch?
    ensures Aside(w.db, NextDb(w, op, at))
  {
    hide SettingsOk, InWindow, InstallTrust, SwitchSigner;
    match op
    case Install(expected, next) => InstallAside(w.db, expected, next, at);
    case Switch(id) => SwitchAside(w.db, id, at.first);
    case _ =>
  }

  lemma AccountsAside(w: World, op: Op, at: Times)
    requires op.AddUser? || op.AlterUser? || op.RevokeEverySession?
    ensures Aside(w.db, NextDb(w, op, at))
  {
    hide FindUser, FindName, Remaining, Bumped;
  }

  lemma NodesAside(w: World, op: Op, at: Times)
    requires op.LocalRead? || op.RenewCredential? || op.RevokeCredential? || op.Enroll? || op.Beat?
    ensures Aside(w.db, NextDb(w, op, at))
  {
    hide FindLive, FindNode, RegistrationOk, Hex;
  }

  lemma StepTold(w: World, op: Op, at: Times)
    requires Told(w.db)
    ensures Told(NextDb(w, op, at))
  {
    hide Told, EnqueueTx, DisableTx, Poll, SubmitResult, CloseTx, QuarantineRestore, StartLogin, FinishLogin, Manage,
         IssueTokenTx, SettingsOk, ConfigureSigner, PauseDispatch, InstallTrust, SwitchSigner, Note, AddCredential,
         Register, Heartbeat, CreateUser, ChangeUser, RevokeAllSessions;
    var db := w.db;
    match op
    case IssueEnrolment(token, ttl, nanos) => IssueTold(db, token, ttl, nanos, "");
    case DisableLocally(agent) => DisableTold(db, agent);
    case Enqueue(o) => EnqueueTold(db, o, at);
    case PollTask(agent, epoch, credential, digest, key) => PollTold(db, agent, epoch, credential, digest, key, at);
    case Submit(agent, epoch, credential, data) => SubmitTold(db, agent, epoch, credential, data);
    case CancelForSwitch => CloseTold(db, CancelQueued);
    case Quarantine => QuarantineTold(db);
    case BeginLogin(name, budget) => StartLoginTold(db, name, budget, at.first);
    case EndLogin(i, matched, id, token) =>
      if i < |w.attempts| { FinishLoginTold(db, w.attempts[i], matched, id, token, at.first); }
    case Administer(token, operation) => ManageTold(db, token, operation, at);
    case _ =>
      if op.AddUser? || op.AlterUser? || op.RevokeEverySession? {
        AccountsAside(w, op, at);
      } else if op.Configure? || op.Pause? || op.Install? || op.Switch? {
        SettingsAside(w, op, at);
      } else {
        NodesAside(w, op, at);
      }
      AsideTold(db, NextDb(w, op, at));
  }

  lemma StartTold(now: int64)
    ensures Told(Start(now).db)
  {
    var events := Start(now).db.ledger.events;
    forall e: Event | OfTasks(e.kind) ensures Count(events, e) == 0 {
      NoSuchEvent(events, e);
    }
  }

  lemma {:induction false} NoSuchEvent(events: seq<Event>, e: Event)
    requires forall i :: 0 <= i < |events| ==> events[i] != e
    ensures Count(events, e) == 0
  {
    if events != [] { NoSuchEvent(events[..|events| - 1], e); }
  }

  lemma {:induction false} RunTold(now: int64, steps: seq<Step>)
    ensures Told(After(Start(now), steps).db)
  {
    hide Told, NextDb, NextIssued, NextAttempts, Recorded, Start;
    if steps == [] {
      StartTold(now);
    } else {
      var n := |steps| - 1;
      RunTold(now, steps[..n]);
      StepTold(After(Start(now), steps[..n]), steps[n].op, steps[n].at);
    }
  }

  lemma {:induction false} OnlyRow(tasks: seq<TaskRow>, i: nat, e: Event)
    requires DistinctRequests(tasks) && i < |tasks| && tasks[i].request == e.subject
    ensures Sum(tasks, Shown(e)) == if Shows(tasks[i], e.kind) then 1 else 0
  {
    hide Shows;
    var n := |tasks| - 1;
    if i < n {
      OnlyRow(tasks[..n], i, e);
    } else {
      SumZero(tasks[..n], Shown(e));
    }
  }

  /** The log tells what became of every task: in every run it holds exactly one event that queued the task, one that
      dispatched it exactly if it was signed, and exactly one that closed it, if it is closed: that it expired, was
      cancelled, or that its result came. */
  lemma LogTellsTasks(now: int64, steps: seq<Step>, i: nat)
    requires i < |After(Start(now), steps).db.tasks|
    ensures var db := After(Start(now), steps).db;
            var r := db.tasks[i];
            var log := db.ledger.events;
            && Count(log, Event(TaskQueued, r.request)) == 1
            && Count(log, Event(TaskDispatched, r.request)) == (if r.envelope.Some? then 1 else 0)
            && Count(log, Event(TaskExpired, r.request)) == (if r.closing == ExpiredBeforeDispatch then 1 else 0)
            && Count(log, Event(TaskCancelled, r.request))
               == (if r.closing == NodeWasDisabled || r.closing == SignerChanged then 1 else 0)
            && Count(log, Event(ResultReceived, r.request)) == (if r.closing.Reported? then 1 else 0)
            && (r.closing == StillOpen <==> r.state == Queued || r.state == Dispatched)
  {
    RunTold(now, steps);
    RunIsGood(now, steps);
    var w := After(Start(now), steps);
    hide After, Start, Count, Sum, Inv;
    assert Plain(w.db.tasks[i]);
    RequestsAreDistinct(w.db, w.signers, w.issued);
    hide AllPlain, DistinctRequests;
    forall kind: Kind | OfTasks(kind)
      ensures Count(w.db.ledger.events, Event(kind, w.db.tasks[i].request))
              == if Shows(w.db.tasks[i], kind) then 1 else 0 {
      OnlyRow(w.db.tasks, i, Event(kind, w.db.tasks[i].request));
    }
  }

  lemma RequestsAreDistinct(db: Db, signers: Signers, issued: Issued)
    requires Inv(db, signers, issued)
    ensures DistinctRequests(db.tasks)
  {
    InvParts(db, signers, issued);
    hide Owned, Queues, AuthInv, SignerBound, TaskOk;
  }

  /** It says nothing of tasks that are not in the table. */
  lemma LogTellsNothingElse(now: int64, steps: seq<Step>, e: Event)
    requires OfTasks(e.kind)
             && forall i :: 0 <= i < |After(Start(now), steps).db.tasks| ==>
                  After(Start(now), steps).db.tasks[i].request != e.subject
    ensures e !in After(Start(now), steps).db.ledger.events
  {
    RunTold(now, steps);
    var db := After(Start(now), steps).db;
    hide After, Start;
    SumZero(db.tasks, Shown(e));
    if e in db.ledger.events { Counted(db.ledger.events, e); }
  }

  lemma {:induction false} Counted(events: seq<Event>, e: Event)
    requires e in events
    ensures Count(events, e) > 0
  {
    var n := |events| - 1;
    if events[n] != e { Counted(events[..n], e); }
  }
}
