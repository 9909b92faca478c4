/** Every run of the server store: conservation of audit reservations, signer rotation, write-once tasks and session
    authority. */
module ServerRuns {
  import opened Core
  import opened Tables
  import opened Protocol
  import opened Ledgers
  import opened Trust
  import opened Envelope
  import opened ServerState
  import opened ServerInvariants
  import opened ServerTransactions
  import opened ServerAccounts

  datatype Op =
    | IssueEnrolment(token: string, ttl: int, nanos: int)
    | Enroll(token: string, registration: Registration)
    | RenewCredential(fingerprint: string)
    | RevokeCredential
    | Beat(agent: string, epoch: string, credential: bool, digest: string, ready: bool, nanos: int)
    | DisableLocally(agent: string)
    | Configure(signer: PublicKey)
    | Enqueue(order: Order)
    | PollTask(agent: string, epoch: string, credential: bool, digest: string, signer: PublicKey)
    | Submit(agent: string, epoch: string, credential: bool, data: ResultText)
    | Pause(paused: bool)
    | Install(expected: Baseline, next: TrustSet)
    | Switch(keyId: KeyId)
    | CancelForSwitch
    | AddUser(user: UserRow)
    | AlterUser(name: string, change: Change)
    | RevokeEverySession
    | Quarantine
    | BeginLogin(name: string, budget: Budget)
    | EndLogin(attempt: nat, matched: bool, session: string, token: string)
    | Administer(token: string, operation: Operation)
    | LocalRead

  datatype Step = Step(op: Op, at: Times)

  /** The store, the latest clock reading, the logins between their two transactions, and two records of
      the past: which signer was selected when a task was queued, and the account read for each session. */
  datatype World = World(db: Db, now: int64, signers: Signers, issued: Issued, attempts: seq<Attempt>)

  /** The database after one operation. */
  function NextDb(w: World, op: Op, at: Times): Db {
    var db := w.db;
    match op
    case IssueEnrolment(token, ttl, nanos) => Committed(db, IssueTokenTx(db, token, ttl, nanos, "")).db
    case Enroll(token, r) => Register(db, token, r, at.first).db
    case RenewCredential(fingerprint) => AddCredential(db, fingerprint).db
    case RevokeCredential => Committed(db, Note(db, CertificateRevoked, "", 0)).db
    case Beat(agent, epoch, credential, digest, ready, nanos) =>
      Heartbeat(db, agent, epoch, credential, digest, ready, nanos).db
    case DisableLocally(agent) => Committed(db, DisableTx(db, agent)).db
    case Configure(key) => ConfigureSigner(db, key).db
    case Enqueue(o) => Committed(db, EnqueueTx(db, o, at)).db
    case PollTask(agent, epoch, credential, digest, key) => Poll(db, agent, epoch, credential, digest, key, at).db
    case Submit(agent, epoch, credential, data) => SubmitResult(db, agent, epoch, credential, data).db
    case Pause(paused) => PauseDispatch(db, paused, at.first).db
    case Install(expected, next) => InstallTrust(db, expected, next, at).db
    case Switch(id) => SwitchSigner(db, id, at.first).db
    case CancelForSwitch => CancelQueuedTasks(db).db
    case AddUser(user) => CreateUser(db, user).db
    case AlterUser(name, change) => ChangeUser(db, name, change).db
    case RevokeEverySession => RevokeAllSessions(db).db
    case Quarantine => QuarantineRestore(db).db
    case BeginLogin(name, budget) => StartLogin(db, name, budget, at.first).db
    case EndLogin(i, matched, id, token) =>
      if i < |w.attempts| then FinishLogin(db, w.attempts[i], matched, id, token, at.first).db else db
    case Administer(token, operation) => Manage(db, token, operation, at).db
    case LocalRead => Committed(db, Note(db, RecordsRead, "", 0)).db
  }

  function NextIssued(w: World, op: Op, at: Times): Issued {
    if op.EndLogin? && op.attempt < |w.attempts| then
      IssuedBy(w.issued, FinishLogin(w.db, w.attempts[op.attempt], op.matched, op.session, op.token, at.first),
          op.session, w.attempts[op.attempt])
    else w.issued
  }

  function NextAttempts(w: World, op: Op, at: Times): seq<Attempt> {
    if op.BeginLogin? && StartLogin(w.db, op.name, op.budget, at.first).result.Ok? then
      w.attempts + [StartLogin(w.db, op.name, op.budget, at.first).result.value]
    else w.attempts
  }

  function Apply(w: World, step: Step): World {
    var db' := NextDb(w, step.op, step.at);
    World(db', step.at.third, Recorded(w.signers, w.db, db'), NextIssued(w, step.op, step.at),
        NextAttempts(w, step.op, step.at))
  }

  function Start(now: int64): World {
    World(Fresh(), now, map[], map[], [])
  }

  function After(w: World, steps: seq<Step>): World {
    if steps == [] then w else Apply(After(w, steps[..|steps| - 1]), steps[|steps| - 1])
  }

  /** The clock never went back: every reading is at least the one before it. */
  ghost predicate Nondecreasing(w: World, steps: seq<Step>) {
    steps == [] ||
    (var n := |steps| - 1;
     Nondecreasing(w, steps[..n]) && Ordered(steps[n].at) && After(w, steps[..n]).now <= steps[n].at.first)
  }

  ghost predicate Good(w: World) {
    Inv(w.db, w.signers, w.issued)
  }

  // ---- One step ----

  lemma DispatchStepKept(w: World, op: Op, at: Times)
    requires Good(w)
             && (op.IssueEnrolment? || op.Enroll? || op.Beat? || op.DisableLocally? || op.Enqueue? || op.PollTask?
                  || op.Submit?)
    ensures Kept(w.db, NextDb(w, op, at), w.signers, w.issued, w.issued, at)
  {
    hide Inv, Kept, IssueTokenTx, Register, Heartbeat, DisableTx, EnqueueTx, Poll, SubmitResult;
    var db := w.db;
    UnchangedKept(db, w.signers, w.issued, at);
    match op
    case IssueEnrolment(token, ttl, nanos) => IssueTokenKept(db, token, ttl, nanos, "", at, w.signers, w.issued);
    case Enroll(token, r) => RegisterKept(db, token, r, at, w.signers, w.issued);
    case Beat(agent, epoch, credential, digest, ready, nanos) =>
      HeartbeatKept(db, agent, epoch, credential, digest, ready, nanos, at, w.signers, w.issued);
    case DisableLocally(agent) => DisableKept(db, agent, w.signers, w.issued, at);
    case Enqueue(o) => if EnqueueTx(db, o, at).Ok? { EnqueueKept(db, o, at, w.signers, w.issued); }
    case PollTask(agent, epoch, credential, digest, key) =>
      PollKept(db, agent, epoch, credential, digest, key, at, w.signers, w.issued);
    case Submit(agent, epoch, credential, data) =>
      SubmitKept(db, agent, epoch, credential, data, at, w.signers, w.issued);
  }

  lemma SignerStepKept(w: World, op: Op, at: Times)
    requires Good(w)
             && (op.Configure? || op.Pause? || op.Install? || op.Switch? || op.CancelForSwitch? || op.LocalRead?
                  || op.RenewCredential? || op.RevokeCredential?)
    ensures Kept(w.db, NextDb(w, op, at), w.signers, w.issued, w.issued, at)
  {
    hide Inv, Kept, ConfigureSigner, PauseDispatch, InstallTrust, SwitchSigner, CancelQueuedTasks, Note, AddCredential;
    var db := w.db;
    UnchangedKept(db, w.signers, w.issued, at);
    match op
    case Configure(key) => ConfigureKept(db, key, at, w.signers, w.issued);
    case Pause(paused) => PauseKept(db, paused, at, w.signers, w.issued);
    case Install(expected, next) => InstallKept(db, expected, next, at, w.signers, w.issued);
    case Switch(id) => SwitchKept(db, id, at, w.signers, w.issued);
    case CancelForSwitch => CancelKept(db, at, w.signers, w.issued);
    case LocalRead => NoteThen(db, db, RecordsRead, "", w.signers, w.issued, at);
    case RenewCredential(fingerprint) => AddCredentialKept(db, fingerprint, at, w.signers, w.issued);
    case RevokeCredential => NoteThen(db, db, CertificateRevoked, "", w.signers, w.issued, at);
  }

  lemma AccountStepKept(w: World, op: Op, at: Times)
    requires Good(w)
             && (op.AddUser? || op.AlterUser? || op.RevokeEverySession? || op.Quarantine? || op.BeginLogin?
                  || op.EndLogin? || op.Administer?)
    ensures Kept(w.db, NextDb(w, op, at), w.signers, w.issued, NextIssued(w, op, at), at)
  {
    hide Inv, Kept, CreateUser, ChangeUser, RevokeAllSessions, QuarantineRestore, StartLogin, FinishLogin, Manage;
    var db := w.db;
    match op
    case AddUser(user) => CreateUserKept(db, user, at, w.signers, w.issued);
    case AlterUser(name, change) => ChangeUserKept(db, name, change, at, w.signers, w.issued);
    case RevokeEverySession => RevokeAllKept(db, at, w.signers, w.issued);
    case Quarantine => QuarantineKept(db, at, w.signers, w.issued);
    case BeginLogin(name, budget) => StartLoginKept(db, name, budget, at, w.signers, w.issued);
    case EndLogin(i, matched, id, token) =>
      if i < |w.attempts| { FinishLoginKept(db, w.attempts[i], matched, id, token, at, w.signers, w.issued); }
      else { UnchangedKept(db, w.signers, w.issued, at); }
    case Administer(token, operation) => ManageKept(db, token, operation, at, w.signers, w.issued);
  }

  lemma StepKept(w: World, step: Step)
    requires Good(w)
    ensures var w' := Apply(w, step); Kept(w.db, w'.db, w.signers, w.issued, w'.issued, step.at)
  {
    hide Good, Kept, NextDb;
    var op, at := step.op, step.at;
    if op.IssueEnrolment? || op.Enroll? || op.Beat? || op.DisableLocally? || op.Enqueue? || op.PollTask? || op.Submit? {
      DispatchStepKept(w, op, at);
    } else if op.Configure? || op.Pause? || op.Install? || op.Switch? || op.CancelForSwitch? || op.LocalRead?
              || op.RenewCredential? || op.RevokeCredential? {
      SignerStepKept(w, op, at);
    } else {
      AccountStepKept(w, op, at);
    }
  }

  lemma ApplyKeepsGood(w: World, step: Step)
    requires Good(w)
    ensures Good(Apply(w, step)) && History(w.db.tasks, Apply(w, step).db.tasks)
  {
    hide Inv, History, NextDb, NextIssued;
    StepKept(w, step);
  }

  lemma ApplyKeepsLive(w: World, step: Step)
    requires Good(w) && Live(w.db, w.now) && Ordered(step.at) && w.now <= step.at.first
    ensures Live(Apply(w, step).db, step.at.third)
  {
    hide Inv, Live, History, NextDb, NextIssued;
    InvLivePasses(w.db, w.signers, w.issued, Times(w.now, step.at.first, step.at.first));
    StepKept(w, step);
  }

  lemma StartIsGood(now: int64)
    ensures Good(Start(now)) && Live(Fresh(), now)
  {
    hide RowLive, RowSigned, TaskOk, SessionCurrent;
    var db := Fresh();
    assert TableInv(db.nodes, db.tasks);
    hide TableInv;
    assert Accounts(db, 0);
    hide Accounts;
  }

  lemma {:induction false} RunIsGood(now: int64, steps: seq<Step>)
    ensures Good(After(Start(now), steps))
  {
    hide Good, Apply, Start;
    if steps == [] {
      StartIsGood(now);
    } else {
      RunIsGood(now, steps[..|steps| - 1]);
      ApplyKeepsGood(After(Start(now), steps[..|steps| - 1]), steps[|steps| - 1]);
    }
  }

  lemma {:induction false} RunIsLive(now: int64, steps: seq<Step>)
    requires Nondecreasing(Start(now), steps)
    ensures Live(After(Start(now), steps).db, After(Start(now), steps).now)
  {
    hide Good, Live;
    if steps == [] {
      StartIsGood(now);
    } else {
      var n := |steps| - 1;
      RunIsLive(now, steps[..n]);
      RunIsGood(now, steps[..n]);
      ApplyKeepsLive(After(Start(now), steps[..n]), steps[n]);
    }
  }

  // ---- Theorems ----

  /** Conservation: after any sequence of operations the reserved slots are one per enabled node, one per
      session, two per queued and one per dispatched task, and fit the log, so a restart is never refused. */
  lemma ReservationsConserved(now: int64, steps: seq<Step>)
    ensures StartupCheck(After(Start(now), steps).db)
  {
    RunIsGood(now, steps);
    hide After, Start, Body;
  }

  /** Whatever else was appended before, a full audit log never stops the loops that expire or cancel tasks and
      end sessions, append by append, nor polling with first dispatch, result receipt, disabling an enabled node
      with all its tasks, logout, or revoking one's own or all existing sessions. */
  lemma CapacityNeverBlocks(now: int64, steps: seq<Step>, at: Times, agent: string, epoch: string, credential: bool,
                            digest: string, key: PublicKey, data: ResultText)
    ensures var db := After(Start(now), steps).db;
            && Sound(db.ledger)
            && (forall c: Sweep :: CloseTx(db, c) == Ok(Close(db, c)))
            && (forall e: Ending :: EndTx(db, e) == Ok(End(db, e)))
            && (var r := Poll(db, agent, epoch, credential, digest, key, at).result; r.Err? ==> !r.error.AuditFailed?)
            && (var r := SubmitResult(db, agent, epoch, credential, data).result; r.Err? ==> !r.error.AuditFailed?)
            && (IsEnabled(db, agent, epoch) && Hex(agent, 32) ==> DisableTx(db, agent).Ok?)
            && (db.sessions != [] ==> RevokeAllSessions(db).result.Ok?)
            && (forall token: string, op: Operation :: op.Logout? || op.RevokeOwn? ==>
                  var r := Manage(db, token, op, at).result; r.Err? ==> !r.error.AuditFailed?)
  {
    hide After, Start, Inv, Kept, Poll, SubmitResult, DisableTx, RevokeAllSessions, Manage, CloseTx, Close, EndTx, End;
    RunIsGood(now, steps);
    var w := After(Start(now), steps);
    PollKept(w.db, agent, epoch, credential, digest, key, at, w.signers, w.issued);
    SubmitKept(w.db, agent, epoch, credential, data, at, w.signers, w.issued);
    RevokeAllKept(w.db, at, w.signers, w.issued);
    if IsEnabled(w.db, agent, epoch) && Hex(agent, 32) { EnabledIsFound(w.db, agent, epoch, w.signers, w.issued, at); }
    InvSound(w.db, w.signers, w.issued);
    forall c: Sweep ensures CloseTx(w.db, c) == Ok(Close(w.db, c)) { CloseSucceeds(w.db, c, w.signers, w.issued); }
    forall e: Ending ensures EndTx(w.db, e) == Ok(End(w.db, e)) { EndsSucceed(w.db, e, w.signers, w.issued); }
    forall token: string, op: Operation | op.Logout? || op.RevokeOwn?
      ensures Manage(w.db, token, op, at).result.Err? ==> !Manage(w.db, token, op, at).result.error.AuditFailed?
    {
      LeavingNeverBlocked(w.db, token, op, at, w.signers, w.issued);
    }
  }

  lemma InvSound(db: Db, signers: Signers, issued: Issued)
    requires Inv(db, signers, issued)
    ensures Sound(db.ledger)
  {
    hide Body;
  }

  lemma LeavingNeverBlocked(db: Db, token: string, op: Operation, at: Times, signers: Signers, issued: Issued)
    requires Inv(db, signers, issued) && (op.Logout? || op.RevokeOwn?)
    ensures Manage(db, token, op, at).result.Err? ==> !Manage(db, token, op, at).result.error.AuditFailed?
  {
    hide Inv, End, EndTx, Authorize, Touch, AdminClock;
    ClockErrors(db, at.first);
    if AdminClock(db, at.first).Ok? {
      var db0 := AdminClock(db, at.first).value;
      ClockPart(db, at.first, signers, issued);
      EndsSucceed(db0, Stale(at.first), signers, issued);
      EndPart(db0, Stale(at.first), signers, issued);
      var db1 := End(db0, Stale(at.first));
      forall e: Ending ensures EndTx(db1, e).Ok? { EndsSucceed(db1, e, signers, issued); }
    }
  }

  lemma ClockErrors(db: Db, now: int64)
    ensures AdminClock(db, now).Err? ==> !AdminClock(db, now).error.AuditFailed?
  {
  }

  lemma EnabledIsFound(db: Db, agent: string, epoch: string, signers: Signers, issued: Issued, at: Times)
    requires Inv(db, signers, issued) && IsEnabled(db, agent, epoch) && Hex(agent, 32)
    ensures DisableTx(db, agent).Ok?
  {
    hide Inv, Kept, DisableAt;
    DisablePart(db, FindNode(db.nodes, agent).value, signers, issued, at);
  }

  /** Rotation never strands live work: with a clock that never goes back, every dispatched task that has
      not expired carries an envelope that verifies under the installed trust, or the configured key, at every
      moment until it expires; and the selected signer is always one of the installed keys. */
  lemma RotationNeverStrands(now: int64, steps: seq<Step>, i: nat, later: int64)
    requires Nondecreasing(Start(now), steps)
    requires i < |After(Start(now), steps).db.tasks|
    ensures var w := After(Start(now), steps);
            var r := w.db.tasks[i];
            var s := w.db.settings;
            && SettingsOk(s)
            && (r.state.Dispatched? && w.now <= later < r.expiresAt ==>
                  s.keyId.Some? && r.envelope.Some?
                    && EnvelopeVerifies(s, r.envelope.value, r.payload, s.keyId.value.preimage, later))
  {
    RunIsGood(now, steps);
    RunIsLive(now, steps);
    var w := After(Start(now), steps);
    hide Inv, After, Start, InOrder, EnvelopeVerifies, Nondecreasing;
    InvParts(w.db, w.signers, w.issued);
    RowFacts(w.db, w.signers, w.issued, i);
    hide TableInv, SignerBound, AuthInv, RowSigned, SettingsOk;
    var r := w.db.tasks[i];
    assert RowLive(w.db.settings, r, w.now);
    if r.state.Dispatched? && w.now <= later < r.expiresAt {
      EnvelopeUntilExpiry(w.db.settings, r.envelope.value, r.payload, w.db.settings.keyId.value.preimage, w.now, later);
    }
  }

  /** A poll of this node selects the row at position i. */
  predicate Selects(
      db: Db, agent: string, epoch: string, credential: bool, digest: string, key: PublicKey, at: Times, i: nat)
  {
    && |key| == KEY_SIZE && Hex(digest, 64) && credential && IsEnabled(db, agent, epoch)
    && SettingsOk(db.settings) && db.settings.keyId == Some(Sha256(key)) && !db.settings.paused
    && Next(SweptRows(db.tasks, ExpireQueued(agent, at.first)), agent, epoch, at.second) == Some(i)
    && i < |db.tasks|
  }

  /** It gets as far as rechecking the stored envelope of that row. */
  predicate Redelivers(
      db: Db, agent: string, epoch: string, credential: bool, digest: string, key: PublicKey, at: Times, i: nat)
  {
    && Selects(db, agent, epoch, credential, digest, key, at, i)
    && db.tasks[i].state.Dispatched? && db.tasks[i].envelope.Some?
  }

  /** The window of the key behind a row's envelope has closed. */
  predicate WindowClosed(s: Settings, r: TaskRow, now: int64) {
    && s.trust.Some? && r.envelope.Some?
    && (var k := EnvelopeKey(r.envelope.value, s.trust.value); k.Some? && k.value.notAfter <= now)
  }

  predicate RechecksTooLate(
      db: Db, agent: string, epoch: string, credential: bool, digest: string, key: PublicKey, at: Times, i: nat)
  {
    i < |db.tasks| && Redelivers(db, agent, epoch, credential, digest, key, at, i)
      && WindowClosed(db.settings, db.tasks[i], at.third)
  }

  /** With a clock that never goes back, redelivery of a dispatched task finds the stored signature invalid if
      and only if the window of its key closes between the reading that selects it and the one that rechecks it.
      By then the task itself has expired. */
  lemma RedeliveryFailsIff(now: int64, steps: seq<Step>, agent: string, epoch: string, credential: bool, digest: string,
                           key: PublicKey, at: Times)
    requires Nondecreasing(Start(now), steps) && Ordered(at) && After(Start(now), steps).now <= at.first
    ensures var db := After(Start(now), steps).db;
            && (Poll(db, agent, epoch, credential, digest, key, at).result == Err(BadSignature) <==>
                  exists i: nat :: RechecksTooLate(db, agent, epoch, credential, digest, key, at, i))
            && forall i: nat :: i < |db.tasks| && RechecksTooLate(db, agent, epoch, credential, digest, key, at, i) ==>
                                  db.tasks[i].expiresAt <= at.third
  {
    hide After, Start, Nondecreasing, Inv, Live, RechecksTooLate, Poll;
    RunIsGood(now, steps);
    RunIsLive(now, steps);
    var w := After(Start(now), steps);
    LiveNow(w, at);
    RecheckIff(w.db, w.signers, w.issued, agent, epoch, credential, digest, key, at);
  }

  lemma RecheckIff(
      db: Db, signers: Signers, issued: Issued, agent: string, epoch: string, credential: bool, digest: string,
      key: PublicKey, at: Times)
    requires Inv(db, signers, issued) && Live(db, at.second) && Ordered(at)
    ensures Poll(db, agent, epoch, credential, digest, key, at).result == Err(BadSignature) <==>
              exists i: nat :: RechecksTooLate(db, agent, epoch, credential, digest, key, at, i)
    ensures forall i: nat :: i < |db.tasks| && RechecksTooLate(db, agent, epoch, credential, digest, key, at, i) ==>
                               db.tasks[i].expiresAt <= at.third
  {
    hide Inv, Live, WindowClosed, Poll, Hex, IsEnabled, SettingsOk, Next, SweptRows;
    if i: nat :| Redelivers(db, agent, epoch, credential, digest, key, at, i) {
      Redelivery(db, signers, issued, agent, epoch, credential, digest, key, at, i);
      assert RechecksTooLate(db, agent, epoch, credential, digest, key, at, i) <==>
               WindowClosed(db.settings, db.tasks[i], at.third);
    } else {
      NoRedelivery(db, signers, issued, agent, epoch, credential, digest, key, at);
    }
    forall i: nat | Redelivers(db, agent, epoch, credential, digest, key, at, i)
      ensures Poll(db, agent, epoch, credential, digest, key, at).result == Err(BadSignature) <==>
                WindowClosed(db.settings, db.tasks[i], at.third)
      ensures WindowClosed(db.settings, db.tasks[i], at.third) ==> db.tasks[i].expiresAt <= at.third
    {
      Redelivery(db, signers, issued, agent, epoch, credential, digest, key, at, i);
    }
  }

  lemma LiveNow(w: World, at: Times)
    requires Good(w) && Live(w.db, w.now) && Ordered(at) && w.now <= at.first
    ensures Live(w.db, at.second)
  {
    hide Inv, Live;
    InvLivePasses(w.db, w.signers, w.issued, Times(w.now, at.first, at.second));
  }

  lemma NoRedelivery(
      db: Db, signers: Signers, issued: Issued, agent: string, epoch: string, credential: bool, digest: string,
      key: PublicKey, at: Times)
    requires Inv(db, signers, issued)
    requires !(exists i: nat :: Redelivers(db, agent, epoch, credential, digest, key, at, i))
    ensures Poll(db, agent, epoch, credential, digest, key, at).result != Err(BadSignature)
  {
    hide Inv, Close, CloseTx, Hex, SettingsOk, IsEnabled, EnvelopeVerifies, SignTask, DispatchAt, SweptRows, Next;
    var c := ExpireQueued(agent, at.first);
    CloseSucceeds(db, c, signers, issued);
    ClosePart(db, c, signers, issued);
    CloseRows(db, c);
    var db1 := Close(db, c);
    match Next(db1.tasks, agent, epoch, at.second)
    case None =>
    case Some(i) =>
      RowFacts(db1, signers, issued, i);
      SweptOpen(c, db.tasks[i]);
      DispatchErrors(db1, i);
      hide TaskOk, RowSigned;
      assert !Redelivers(db, agent, epoch, credential, digest, key, at, i);
  }

  lemma CloseRows(db: Db, c: Sweep)
    ensures Close(db, c).tasks == SweptRows(db.tasks, c) && Close(db, c).settings == db.settings
  {
    hide SweptRows, SweepEvents;
  }

  lemma SweptOpen(c: Sweep, r: TaskRow)
    ensures !Swept(c, r).state.Terminal? ==> Swept(c, r) == r
  {
  }

  lemma DispatchErrors(db: Db, i: nat)
    requires i < |db.tasks|
    ensures forall e: Envelope :: DispatchAt(db, i, e).Err? ==> DispatchAt(db, i, e).error.AuditFailed?
  {
  }

  lemma Redelivery(
      db: Db, signers: Signers, issued: Issued, agent: string, epoch: string, credential: bool, digest: string,
      key: PublicKey, at: Times, i: nat)
    requires Inv(db, signers, issued) && Live(db, at.second) && Ordered(at)
    requires Redelivers(db, agent, epoch, credential, digest, key, at, i)
    ensures Poll(db, agent, epoch, credential, digest, key, at).result == Err(BadSignature) <==>
              WindowClosed(db.settings, db.tasks[i], at.third)
    ensures WindowClosed(db.settings, db.tasks[i], at.third) ==> db.tasks[i].expiresAt <= at.third
  {
    hide Inv, Close, CloseTx, Hex, SettingsOk, IsEnabled, EnvelopeVerifies, InOrder, SignTask, DispatchAt, SweptRows,
         Next, WindowClosed;
    var c := ExpireQueued(agent, at.first);
    CloseSucceeds(db, c, signers, issued);
    CloseRows(db, c);
    SweptOpen(c, db.tasks[i]);
    RowFacts(db, signers, issued, i);
    assert RowLive(db.settings, db.tasks[i], at.second);
    RecheckFailsIff(db.settings, db.tasks[i], key, at.second, at.third);
  }

  lemma RecheckFailsIff(s: Settings, r: TaskRow, key: PublicKey, now: int64, later: int64)
    requires TaskOk(r) && r.envelope.Some? && EnvelopeVerifies(s, r.envelope.value, r.payload, key, now) && now <= later
    ensures EnvelopeVerifies(s, r.envelope.value, r.payload, key, later) <==> !WindowClosed(s, r, later)
    ensures WindowClosed(s, r, later) ==> r.expiresAt <= later
  {
    hide VerifyTrusted, EnvelopeKey, DecodeTask, ResultOk;
    if s.trust.Some? { VerifiesWhileWindowOpen(r.envelope.value, s.trust.value, now, later); }
  }

  /** A queued task can only be signed by the signer selected when it was queued, and every envelope was. */
  lemma SignedBySelectedSigner(now: int64, steps: seq<Step>, i: nat)
    requires i < |After(Start(now), steps).db.tasks|
    ensures var w := After(Start(now), steps);
            var r := w.db.tasks[i];
            && r.request in w.signers
            && (r.state.Queued? ==> w.db.settings.keyId == Some(w.signers[r.request]))
            && (r.envelope.Some? ==> SignedBy(r.envelope.value, w.signers[r.request], r.payload))
  {
    RunIsGood(now, steps);
    var w := After(Start(now), steps);
    hide Inv, After, Start;
    RowFacts(w.db, w.signers, w.issued, i);
  }

  lemma {:induction false} AfterConcat(w: World, a: seq<Step>, b: seq<Step>)
    ensures After(w, a + b) == After(After(w, a), b)
  {
    hide Apply;
    if b == [] {
      assert a + b == a;
    } else {
      var n := |b| - 1;
      AfterConcat(w, a, b[..n]);
      assert (a + b)[..|a + b| - 1] == a + b[..n];
    }
  }

  lemma {:induction false} HistoryAfter(w: World, steps: seq<Step>)
    requires Good(w)
    ensures Good(After(w, steps)) && History(w.db.tasks, After(w, steps).db.tasks)
  {
    hide Good, History, Apply;
    if steps == [] {
      SameHistory(w.db.tasks);
    } else {
      var w1 := After(w, steps[..|steps| - 1]);
      HistoryAfter(w, steps[..|steps| - 1]);
      ApplyKeepsGood(w1, steps[|steps| - 1]);
      HistoryTransitive(w.db.tasks, w1.db.tasks, After(w, steps).db.tasks);
    }
  }

  /** Over every run, a task's identity, payload and envelope bytes never change once written, and terminal
      states and stored results are write-once. */
  lemma TasksAreWriteOnce(now: int64, steps: seq<Step>, more: seq<Step>)
    ensures History(After(Start(now), steps).db.tasks, After(Start(now), steps + more).db.tasks)
  {
    hide After, Good, Start;
    RunIsGood(now, steps);
    HistoryAfter(After(Start(now), steps), more);
    AfterConcat(Start(now), steps, more);
  }

  /** The node of an unresolved task is enabled. */
  ghost predicate OwnerEnabled(nodes: seq<NodeRow>, r: TaskRow) {
    !r.state.Terminal? ==> EnabledFor(nodes, r.agent, r.epoch)
  }

  /** No two rows of one node are both dispatched and unexpired. */
  predicate OneLive(tasks: seq<TaskRow>, now: int64) {
    forall i, j :: 0 <= i < j < |tasks| && IsLive(tasks[i], now) && IsLive(tasks[j], now) ==>
                     tasks[i].agent != tasks[j].agent
  }

  /** Every unresolved task belongs to an enabled node, a node has at most ten of them, and with a clock
      that never goes back at most one is dispatched and unexpired. */
  lemma QueueDiscipline(now: int64, steps: seq<Step>)
    ensures var w := After(Start(now), steps);
            && (forall i :: 0 <= i < |w.db.tasks| ==> OwnerEnabled(w.db.nodes, w.db.tasks[i]))
            && (forall agent: string :: Sum(w.db.tasks, PendingOf(agent)) <= 10)
            && (Nondecreasing(Start(now), steps) ==> OneLive(w.db.tasks, w.now))
  {
    hide After, Start, Nondecreasing, Inv, EnabledFor, Live, OneLive;
    RunIsGood(now, steps);
    var w := After(Start(now), steps);
    if Nondecreasing(Start(now), steps) {
      RunIsLive(now, steps);
      LiveIsAlone(w.db, w.now);
    }
    InvParts(w.db, w.signers, w.issued);
    hide TasksOk, SignerBound, AuthInv;
    forall i | 0 <= i < |w.db.tasks| ensures OwnerEnabled(w.db.nodes, w.db.tasks[i]) {
      if !w.db.tasks[i].state.Terminal? { UnresolvedEnabled(w.db.nodes, w.db.tasks, i); }
    }
  }

  lemma LiveIsAlone(db: Db, now: int64)
    requires Live(db, now)
    ensures OneLive(db.tasks, now)
  {
    hide LiveVerified;
    forall i, j | 0 <= i < j < |db.tasks| && IsLive(db.tasks[i], now) && IsLive(db.tasks[j], now)
      ensures db.tasks[i].agent != db.tasks[j].agent {
      assert Ahead(db.tasks[i], db.tasks[j], now);
    }
  }

  /** With logins split in two transactions and anything in between, every live session was issued under
      its account's present generation, password and role, and the account is enabled. */
  lemma SessionsHaveCurrentAuthority(now: int64, steps: seq<Step>, i: nat)
    requires i < |After(Start(now), steps).db.sessions|
    ensures var w := After(Start(now), steps);
            var s := w.db.sessions[i];
            && s.id in w.issued && w.issued[s.id].id == s.user
            && exists k :: 0 <= k < |w.db.users| && w.db.users[k].id == s.user && w.db.users[k].enabled
                 && w.db.users[k].generation == w.issued[s.id].generation
                 && w.db.users[k].password == w.issued[s.id].password && w.db.users[k].role == w.issued[s.id].role
  {
    RunIsGood(now, steps);
    var w := After(Start(now), steps);
    hide Inv, After, Start;
    InvParts(w.db, w.signers, w.issued);
    hide TableInv, SignerBound, Accounts, DistinctSessions;
    assert SessionCurrent(w.db.users, w.db.sessions[i], w.issued);
    var k := FindUser(w.db.users, w.db.sessions[i].user).value;
    assert w.db.users[k].enabled;
  }

  /** In every run there are at most 128 sessions, eight per account, and 32 accounts. */
  lemma SessionLimits(now: int64, steps: seq<Step>, user: string)
    ensures var db := After(Start(now), steps).db;
            |db.sessions| <= 128 && Sum(db.sessions, OwnedBy(user)) <= 8 && |db.users| <= 32
  {
    RunIsGood(now, steps);
    var w := After(Start(now), steps);
    hide Inv, After, Start, DistinctSessions, DistinctUsers, SessionCurrent;
    InvParts(w.db, w.signers, w.issued);
  }

  /** Exactly when an account change is refused for lack of audit capacity. */
  lemma ChangeUserBlockedIff(now: int64, steps: seq<Step>, name: string, c: Change)
    ensures var db := After(Start(now), steps).db;
            var r := ChangeUser(db, name, c).result;
            (r.Err? && r.error.AuditFailed?) <==>
              Changeable(db, name, c) && Full(db) && !HasSessions(db, db.users[FindName(db.users, name).value].id)
  {
    RunIsGood(now, steps);
    var w := After(Start(now), steps);
    hide Inv, After, Start, ChangeUser, Kept;
    ChangeUserKept(w.db, name, c, Times(0, 0, 0), w.signers, w.issued);
  }
}
