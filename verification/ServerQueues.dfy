/** Queued work under signer rotation: which tasks can never be signed, and which installations cause it. */
module ServerQueues {
  import opened Core
  import opened Tables
  import opened Protocol
  import opened Ledgers
  import opened Trust
  import opened Envelope
  import opened ServerState
  import opened ServerInvariants
  import opened ServerTransactions
  import opened ServerAccounts
  import opened ServerEffects
  import opened ServerRuns
  import opened ServerSteps

  // ---- One step ----

  lemma {:induction false} CoverageShrinks(previous: TrustSet, next: TrustSet, id: KeyId, r: TaskRow)
    requires LaterStep(previous, next) && id in Ids(previous.keys) && Covers(next, id, r)
    ensures Covers(previous, id, r)
  {
    hide DecodeTask;
    StepKeeps(previous, next);
  }

  lemma InstallEffect(db: Db, expected: Baseline, next: TrustSet, at: Times)
    ensures var db' := InstallTrust(db, expected, next, at).db;
            && db'.tasks == db.tasks && db'.settings.keyId == db.settings.keyId
            && (db'.settings.trust == db.settings.trust
                || (db'.settings.trust == Some(next) && db.settings.keyId.Some?
                    && Accepted(db.settings.trust, db.settings.keyId.value, next) && SettingsOk(db.settings)))
  {
    hide Valid, SettingsOk, Accepted, SameTrust, MatchesBaseline, AllLiveVerify, Sound;
  }

  /** Signing in the poll path fails for a task outside its signer's window. */
  lemma StrandedIsNotSigned(s: Settings, r: TaskRow, key: PublicKey, now: int64)
    requires Stranded(s, r) && s.keyId == Some(Sha256(key))
    ensures SignTask(s, r.payload, key, now).None?
  {
    hide Valid, DecodeTask, Key;
  }

  lemma DeliverLeavesStranded(db: Db, k: nat, key: PublicKey, now: int64, i: nat)
    requires k < |db.tasks| && i < |db.tasks| && Deliver(db, k, key, now).Ok? && db.settings.keyId == Some(Sha256(key))
    requires Stranded(db.settings, db.tasks[i]) || db.tasks[i].state.Terminal?
    requires !db.tasks[k].state.Terminal?
    ensures var db' := Deliver(db, k, key, now).value.0;
            db'.settings == db.settings && |db'.tasks| == |db.tasks| && db'.tasks[i] == db.tasks[i]
  {
    hide SignTask, EnvelopeVerifies, DecodeTask, Stranded;
    if k == i {
      StrandedIsNotSigned(db.settings, db.tasks[i], key, now);
      StrandedIsQueued(db, i);
    }
  }

  /** A poll signs no stranded task: it leaves its row closed or as it was. */
  lemma PollLeavesStranded(
      db: Db, agent: string, epoch: string, credential: bool, digest: string, key: PublicKey, at: Times, i: nat)
    requires i < |db.tasks| && Stranded(db.settings, db.tasks[i])
    ensures var db' := Poll(db, agent, epoch, credential, digest, key, at).db;
            db'.settings == db.settings && i < |db'.tasks| && Closes(db.tasks[i], db'.tasks[i])
  {
    hide Hex, IsEnabled, SettingsOk, CloseTx, Deliver, Stranded, Next, Swept, Closes, SweptRows;
    var c := ExpireQueued(agent, at.first);
    CloseTxShape(db, c);
    SameCloses(db.tasks[i]);
    if CloseTx(db, c).Ok? {
      var db1 := CloseTx(db, c).value;
      SweptCloses(c, db.tasks[i]);
      SweptStranded(db.settings, c, db.tasks[i]);
      match Next(db1.tasks, agent, epoch, at.second)
      case None =>
      case Some(k) =>
        if db.settings.keyId == Some(Sha256(key)) && Deliver(db1, k, key, at.third).Ok? {
          DeliverLeavesStranded(db1, k, key, at.third, i);
        }
    }
  }

  lemma SameCloses(r: TaskRow)
    ensures Closes(r, r)
  {
  }

  lemma SweptStranded(s: Settings, c: Sweep, r: TaskRow)
    requires Stranded(s, r)
    ensures Stranded(s, Swept(c, r)) || Swept(c, r).state.Terminal?
  {
    hide Covers;
  }

  lemma SubmitLeavesQueued(db: Db, agent: string, epoch: string, credential: bool, data: ResultText, i: nat)
    requires i < |db.tasks| && db.tasks[i].state.Queued?
    ensures var db' := SubmitResult(db, agent, epoch, credential, data).db;
            db'.settings == db.settings && i < |db'.tasks| && db'.tasks[i] == db.tasks[i]
  {
    hide DecodeResult, ResultError, IsEnabled, TextSize;
  }

  /** What an operation may do to a stranded row and to the signer settings. */
  lemma StrandedStep(w: World, op: Op, at: Times, i: nat)
    requires Good(w) && i < |w.db.tasks| && Stranded(w.db.settings, w.db.tasks[i])
    ensures var db' := NextDb(w, op, at);
            && i < |db'.tasks| && Closes(w.db.tasks[i], db'.tasks[i])
            && (db'.tasks[i].state.Queued? ==> Stranded(db'.settings, db'.tasks[i]))
  {
    hide Poll, SubmitResult, InstallTrust, Good, Covers, Quiet, Stranded, ConfigureSigner, PauseDispatch, SwitchSigner;
    StrandedIsQueued(w.db, i);
    var db, db' := w.db, NextDb(w, op, at);
    match op
    case PollTask(agent, epoch, credential, digest, key) =>
      PollLeavesStranded(db, agent, epoch, credential, digest, key, at, i);
      StillStranded(db.settings, db.tasks[i], db'.tasks[i]);
    case Submit(agent, epoch, credential, data) => SubmitLeavesQueued(db, agent, epoch, credential, data, i);
    case Install(expected, next) =>
      InstallEffect(db, expected, next, at);
      InstallStrands(w, expected, next, at, i);
    case Configure(_) => SettingsLeaveStranded(w, op, at, i);
    case Pause(_) => SettingsLeaveStranded(w, op, at, i);
    case Switch(_) => SettingsLeaveStranded(w, op, at, i);
    case _ =>
      OtherStepsAreQuiet(w, op, at);
      hide NextDb;
      QuietRow(db, db', i);
      StillStranded(db.settings, db.tasks[i], db'.tasks[i]);
  }

  lemma SettingsLeaveStranded(w: World, op: Op, at: Times, i: nat)
    requires Good(w) && i < |w.db.tasks| && Stranded(w.db.settings, w.db.tasks[i])
    requires op.Configure? || op.Pause? || op.Switch?
    ensures var db' := NextDb(w, op, at); db'.tasks == w.db.tasks && Stranded(db'.settings, w.db.tasks[i])
  {
    hide Good, Covers, SettingsOk, InWindow;
  }

  lemma StillStranded(s: Settings, r: TaskRow, r': TaskRow)
    requires Stranded(s, r) && Closes(r, r')
    ensures r'.state.Queued? ==> Stranded(s, r')
  {
  }

  lemma QuietRow(db: Db, db': Db, i: nat)
    requires Quiet(db, db') && i < |db.tasks|
    ensures db'.settings == db.settings && i < |db'.tasks| && Closes(db.tasks[i], db'.tasks[i])
  {
    hide Closes, Begins;
  }

  lemma InstallStrands(w: World, expected: Baseline, next: TrustSet, at: Times, i: nat)
    requires Good(w) && i < |w.db.tasks| && Stranded(w.db.settings, w.db.tasks[i])
    ensures Stranded(InstallTrust(w.db, expected, next, at).db.settings, w.db.tasks[i])
  {
    hide InstallTrust, Good, Covers, Valid, LaterStep;
    var s, s' := w.db.settings, InstallTrust(w.db, expected, next, at).db.settings;
    InstallEffect(w.db, expected, next, at);
    if s'.trust != s.trust && Covers(next, s.keyId.value, w.db.tasks[i]) {
      CoverageShrinks(s.trust.value, next, s.keyId.value, w.db.tasks[i]);
    }
  }

  // ---- Over runs ----

  /** The task at this position was never signed, and either waits outside its signer's window or is closed. */
  predicate NeverSigned(db: Db, i: nat) {
    && i < |db.tasks| && db.tasks[i].envelope.None?
    && (Stranded(db.settings, db.tasks[i]) || db.tasks[i].state.Terminal?)
  }

  lemma NeverSignedStep(w: World, step: Step, i: nat)
    requires Good(w) && NeverSigned(w.db, i)
    ensures NeverSigned(Apply(w, step).db, i)
  {
    hide Good, Stranded, NextDb, NextIssued, NextAttempts, Recorded, TaskOk;
    ApplyKeepsGood(w, step);
    var w' := Apply(w, step);
    if w.db.tasks[i].state.Terminal? {
      TerminalStays(w.db.tasks, w'.db.tasks, i);
    } else {
      StrandedStep(w, step.op, step.at, i);
      UnsignedIsOpen(w', i);
    }
  }

  lemma TerminalStays(tasks: seq<TaskRow>, tasks': seq<TaskRow>, i: nat)
    requires History(tasks, tasks') && i < |tasks| && tasks[i].state.Terminal?
    ensures i < |tasks'| && tasks'[i] == tasks[i]
  {
    assert RowEvolves(tasks[i], tasks'[i]);
  }

  lemma UnsignedIsOpen(w: World, i: nat)
    requires Good(w) && i < |w.db.tasks| && w.db.tasks[i].envelope.None?
    ensures !w.db.tasks[i].state.Dispatched?
  {
    hide Inv, RowSigned, DecodeTask, ResultOk;
    RowFacts(w.db, w.signers, w.issued, i);
  }

  lemma {:induction false} NeverSignedAfter(now: int64, steps: seq<Step>, n: nat, i: nat)
    requires n <= |steps| && NeverSigned(After(Start(now), steps[..n]).db, i)
    ensures NeverSigned(After(Start(now), steps).db, i)
  {
    hide NeverSigned, Apply, Good, Start;
    if n == |steps| {
      assert steps[..n] == steps;
    } else {
      var last := |steps| - 1;
      assert steps[..last][..n] == steps[..n];
      NeverSignedAfter(now, steps[..last], n, i);
      RunIsGood(now, steps[..last]);
      NeverSignedStep(After(Start(now), steps[..last]), steps[last], i);
    }
  }

  /** A queued task whose signer's window does not reach from its creation to its end is never delivered, in any
      continuation of the run, whatever trust sets are installed: it waits until it expires or is cancelled. */
  lemma StrandedForever(now: int64, steps: seq<Step>, n: nat, i: nat)
    requires n <= |steps| && i < |After(Start(now), steps[..n]).db.tasks|
    requires var db := After(Start(now), steps[..n]).db; Stranded(db.settings, db.tasks[i])
    ensures var db := After(Start(now), steps).db;
            && i < |db.tasks| && db.tasks[i].envelope.None?
            && (Stranded(db.settings, db.tasks[i]) || db.tasks[i].state.Terminal?)
  {
    hide After, Start, Good, Stranded, TaskOk;
    RunIsGood(now, steps[..n]);
    QueuedIsUnsigned(After(Start(now), steps[..n]), i);
    StrandedIsQueued(After(Start(now), steps[..n]).db, i);
    NeverSignedAfter(now, steps, n, i);
  }

  lemma StrandedIsQueued(db: Db, i: nat)
    requires i < |db.tasks| && Stranded(db.settings, db.tasks[i])
    ensures db.tasks[i].state.Queued?
  {
  }

  lemma QueuedIsUnsigned(w: World, i: nat)
    requires Good(w) && i < |w.db.tasks|
    ensures w.db.tasks[i].state.Queued? ==> w.db.tasks[i].envelope.None?
  {
    hide Inv, RowSigned, DecodeTask, ResultOk;
    RowFacts(w.db, w.signers, w.issued, i);
  }

  // ---- Which installations strand queued work ----

  ghost predicate NoneStranded(db: Db) {
    forall i :: 0 <= i < |db.tasks| ==> !Stranded(db.settings, db.tasks[i])
  }

  /** If this step puts a trust set in force, the set covers every task queued at that moment. */
  ghost predicate CoversQueue(w: World, step: Step) {
    step.op.Install? && NextDb(w, step.op, step.at).settings.trust == Some(step.op.next)
      && w.db.settings.keyId.Some? ==>
      forall i :: 0 <= i < |w.db.tasks| && w.db.tasks[i].state.Queued? ==>
        Covers(step.op.next, w.db.settings.keyId.value, w.db.tasks[i])
  }

  lemma QuietStrandsNone(db: Db, db': Db)
    requires Quiet(db, db') && NoneStranded(db)
    ensures NoneStranded(db')
  {
    hide Covers;
    forall i | 0 <= i < |db'.tasks| ensures !Stranded(db'.settings, db'.tasks[i]) {
      assert if i < |db.tasks| then Closes(db.tasks[i], db'.tasks[i]) else Begins(db.settings, db'.tasks[i]);
      CoverageStays(db.settings, db.tasks, db'.tasks, i);
    }
  }

  lemma DeliverStrandsNone(db: Db, i: nat, key: PublicKey, now: int64)
    requires i < |db.tasks| && NoneStranded(db) && Deliver(db, i, key, now).Ok?
    ensures NoneStranded(Deliver(db, i, key, now).value.0)
  {
    hide DecodeTask, SignTask, EnvelopeVerifies, Covers;
  }

  lemma PollStrandsNone(
      db: Db, agent: string, epoch: string, credential: bool, digest: string, key: PublicKey, at: Times)
    requires NoneStranded(db)
    ensures NoneStranded(Poll(db, agent, epoch, credential, digest, key, at).db)
  {
    hide Hex, IsEnabled, SettingsOk, CloseTx, Deliver, NoneStranded, Next, Quiet;
    var c := ExpireQueued(agent, at.first);
    CloseIsQuiet(db, c);
    if CloseTx(db, c).Ok? {
      var db1 := CloseTx(db, c).value;
      QuietStrandsNone(db, db1);
      match Next(db1.tasks, agent, epoch, at.second)
      case None =>
      case Some(i) => if Deliver(db1, i, key, at.third).Ok? { DeliverStrandsNone(db1, i, key, at.third); }
    }
  }

  lemma SubmitStrandsNone(db: Db, agent: string, epoch: string, credential: bool, data: ResultText)
    requires NoneStranded(db)
    ensures NoneStranded(SubmitResult(db, agent, epoch, credential, data).db)
  {
    hide DecodeResult, ResultError, IsEnabled, TextSize, Covers;
  }

  lemma InForce(db: Db, db': Db, next: TrustSet, id: KeyId)
    requires db'.tasks == db.tasks && db'.settings.trust == Some(next) && db'.settings.keyId == Some(id)
    ensures NoneStranded(db') <==>
              forall i :: 0 <= i < |db.tasks| && db.tasks[i].state.Queued? ==> Covers(next, id, db.tasks[i])
  {
    hide Covers;
  }

  lemma SameSettings(db: Db, db': Db)
    requires db'.tasks == db.tasks && NoneStranded(db)
    requires db'.settings.trust == db.settings.trust && db'.settings.keyId == db.settings.keyId
    ensures NoneStranded(db')
  {
    hide Covers;
  }

  lemma InstallStrandsIff(w: World, step: Step)
    requires step.op.Install? && NoneStranded(w.db)
    ensures CoversQueue(w, step) <==> NoneStranded(NextDb(w, step.op, step.at))
  {
    hide InstallTrust, Covers, NoneStranded, Accepted, SettingsOk;
    InstallEffect(w.db, step.op.expected, step.op.next, step.at);
    var db' := NextDb(w, step.op, step.at);
    if db'.settings.trust == Some(step.op.next) && w.db.settings.keyId.Some? {
      InForce(w.db, db', step.op.next, w.db.settings.keyId.value);
    } else {
      SameSettings(w.db, db');
    }
  }

  lemma NoneStrandedStep(w: World, step: Step)
    requires Good(w) && NoneStranded(w.db)
    ensures CoversQueue(w, step) <==> NoneStranded(Apply(w, step).db)
  {
    hide Poll, SubmitResult, InstallTrust, Good, NoneStranded, Quiet, NextIssued, NextAttempts, Recorded;
    match step.op
    case PollTask(agent, epoch, credential, digest, key) =>
      PollStrandsNone(w.db, agent, epoch, credential, digest, key, step.at);
    case Submit(agent, epoch, credential, data) => SubmitStrandsNone(w.db, agent, epoch, credential, data);
    case Install(expected, next) => InstallStrandsIff(w, step);
    case Configure(_) => SettingsStrandNone(w, step);
    case Pause(_) => SettingsStrandNone(w, step);
    case Switch(_) => SettingsStrandNone(w, step);
    case _ =>
      hide NextDb;
      OtherStepsAreQuiet(w, step.op, step.at);
      QuietStrandsNone(w.db, NextDb(w, step.op, step.at));
  }

  lemma SettingsStrandNone(w: World, step: Step)
    requires Good(w) && NoneStranded(w.db) && (step.op.Configure? || step.op.Pause? || step.op.Switch?)
    ensures NoneStranded(NextDb(w, step.op, step.at))
  {
    hide SettingsOk, InWindow, Covers, TableInv, SignerBound, AuthInv, Accounts;
    GoodSettings(w);
  }

  lemma GoodSettings(w: World)
    requires Good(w)
    ensures w.db.settings.trust.Some? ==> w.db.settings.keyId.Some?
  {
    hide TableInv, SignerBound, AuthInv, Accounts, Valid;
  }

  /** No queued task was stranded at any point of the run. */
  ghost predicate NeverStranded(now: int64, steps: seq<Step>) {
    NoneStranded(After(Start(now), steps).db) && (steps == [] || NeverStranded(now, steps[..|steps| - 1]))
  }

  /** Every trust set put in force during the run covered the tasks queued at that moment. */
  ghost predicate AlwaysCovers(now: int64, steps: seq<Step>) {
    steps == [] ||
    (var n := |steps| - 1; AlwaysCovers(now, steps[..n]) && CoversQueue(After(Start(now), steps[..n]), steps[n]))
  }

  /** Rotation strands no queued work, at any point of a run, if and only if every trust set put in force covers
      the tasks queued at that moment: an administrator can check it before installing. */
  lemma {:induction false} NeverStrandsIff(now: int64, steps: seq<Step>)
    ensures NeverStranded(now, steps) <==> AlwaysCovers(now, steps)
  {
    hide CoversQueue, Apply, Good;
    if steps != [] {
      hide NoneStranded, Start;
      var n := |steps| - 1;
      NeverStrandsIff(now, steps[..n]);
      RunIsGood(now, steps[..n]);
      if NoneStranded(After(Start(now), steps[..n]).db) {
        NoneStrandedStep(After(Start(now), steps[..n]), steps[n]);
      }
    }
  }

  // ---- First delivery ----

  /** The installed set does not let the selected signer sign this task now. */
  predicate Unsignable(s: Settings, r: TaskRow, now: int64) {
    && s.trust.Some? && s.keyId.Some?
    && !(Covers(s.trust.value, s.keyId.value, r) && InWindow(s.trust.value, s.keyId, now))
  }

  predicate SignsInVain(
      db: Db, agent: string, epoch: string, credential: bool, digest: string, key: PublicKey, at: Times, i: nat)
  {
    && i < |db.tasks| && Selects(db, agent, epoch, credential, digest, key, at, i)
    && db.tasks[i].state.Queued? && Unsignable(db.settings, db.tasks[i], at.third)
  }

  /** In every run, whatever the clock does, the first delivery of a task fails for want of a signature if and only
      if the row at the head of the node's queue is queued and its signer's window does not hold it or is not open;
      the poll then changes nothing, so the rows behind it wait as well. */
  lemma FirstDeliveryFailsIff(
      now: int64, steps: seq<Step>, agent: string, epoch: string, credential: bool, digest: string, key: PublicKey,
      at: Times)
    ensures var db := After(Start(now), steps).db;
            var tx := Poll(db, agent, epoch, credential, digest, key, at);
            && (tx.result == Err(CannotSign) <==>
                  exists i: nat :: SignsInVain(db, agent, epoch, credential, digest, key, at, i))
            && (tx.result == Err(CannotSign) ==> tx.db == db)
  {
    hide After, Start, Inv, Poll, SignsInVain, Selects;
    RunIsGood(now, steps);
    var w := After(Start(now), steps);
    FailsOnlyAtHead(w.db, w.signers, w.issued, agent, epoch, credential, digest, key, at);
    forall i: nat | SignsInVain(w.db, agent, epoch, credential, digest, key, at, i)
      ensures Poll(w.db, agent, epoch, credential, digest, key, at).result == Err(CannotSign) {
      HeadFails(w.db, w.signers, w.issued, agent, epoch, credential, digest, key, at, i);
    }
    PollErrKeeps(w.db, agent, epoch, credential, digest, key, at);
  }

  lemma PollErrKeeps(
      db: Db, agent: string, epoch: string, credential: bool, digest: string, key: PublicKey, at: Times)
    ensures var tx := Poll(db, agent, epoch, credential, digest, key, at); tx.result.Err? ==> tx.db == db
  {
    hide Hex, SettingsOk, IsEnabled, CloseTx, Next, Deliver;
  }

  lemma SignFailsIff(s: Settings, r: TaskRow, key: PublicKey, now: int64)
    requires SettingsOk(s) && TaskOk(r) && s.keyId == Some(Sha256(key))
    ensures SignTask(s, r.payload, key, now).None? <==> Unsignable(s, r, now)
  {
    hide Valid, DecodeTask, Key, ResultOk;
  }

  /** What a poll does when this row is the one it selects. */
  lemma AtHead(
      db: Db, signers: Signers, issued: Issued, agent: string, epoch: string, credential: bool, digest: string,
      key: PublicKey, at: Times, i: nat)
    requires Inv(db, signers, issued) && Selects(db, agent, epoch, credential, digest, key, at, i)
    ensures TaskOk(db.tasks[i]) && !db.tasks[i].state.Terminal?
    ensures var db1 := Close(db, ExpireQueued(agent, at.first));
            && |db1.tasks| == |db.tasks| && db1.tasks[i] == db.tasks[i] && db1.settings == db.settings
            && (Poll(db, agent, epoch, credential, digest, key, at).result == Err(CannotSign) <==>
                  Deliver(db1, i, key, at.third) == Err(CannotSign))
  {
    hide Inv, Close, CloseTx, Hex, SettingsOk, IsEnabled, Deliver, SweptRows, Next, TaskOk;
    var c := ExpireQueued(agent, at.first);
    CloseSucceeds(db, c, signers, issued);
    CloseRows(db, c);
    SweptOpen(c, db.tasks[i]);
    RowFacts(db, signers, issued, i);
  }

  lemma HeadFails(
      db: Db, signers: Signers, issued: Issued, agent: string, epoch: string, credential: bool, digest: string,
      key: PublicKey, at: Times, i: nat)
    requires Inv(db, signers, issued) && SignsInVain(db, agent, epoch, credential, digest, key, at, i)
    ensures Poll(db, agent, epoch, credential, digest, key, at).result == Err(CannotSign)
  {
    hide Inv, Close, Hex, IsEnabled, SweptRows, Next, Poll, Unsignable, SignTask, EnvelopeVerifies, DispatchAt,
         SettingsOk;
    AtHead(db, signers, issued, agent, epoch, credential, digest, key, at, i);
    hide ResultOk;
    SignFailsIff(db.settings, db.tasks[i], key, at.third);
  }

  lemma FailsOnlyAtHead(
      db: Db, signers: Signers, issued: Issued, agent: string, epoch: string, credential: bool, digest: string,
      key: PublicKey, at: Times)
    requires Inv(db, signers, issued)
    ensures Poll(db, agent, epoch, credential, digest, key, at).result == Err(CannotSign) ==>
              exists i: nat :: SignsInVain(db, agent, epoch, credential, digest, key, at, i)
  {
    hide Inv, Close, Hex, IsEnabled, SweptRows, Next, Poll, Unsignable, SignTask, EnvelopeVerifies, SettingsOk,
         DispatchAt,
         ResultOk;
    if Poll(db, agent, epoch, credential, digest, key, at).result == Err(CannotSign) {
      var i := HeadOf(db, signers, issued, agent, epoch, credential, digest, key, at);
      AtHead(db, signers, issued, agent, epoch, credential, digest, key, at, i);
      var db1 := Close(db, ExpireQueued(agent, at.first));
      DispatchErrors(db1, i);
      SignFailsIff(db.settings, db.tasks[i], key, at.third);
      assert SignsInVain(db, agent, epoch, credential, digest, key, at, i);
    }
  }

  lemma HeadOf(
      db: Db, signers: Signers, issued: Issued, agent: string, epoch: string, credential: bool, digest: string,
      key: PublicKey, at: Times) returns (i: nat)
    requires Inv(db, signers, issued)
    requires Poll(db, agent, epoch, credential, digest, key, at).result == Err(CannotSign)
    ensures Selects(db, agent, epoch, credential, digest, key, at, i)
  {
    hide Inv, Close, CloseTx, Hex, SettingsOk, IsEnabled, Deliver, SweptRows, Next;
    var c := ExpireQueued(agent, at.first);
    CloseSucceeds(db, c, signers, issued);
    CloseRows(db, c);
    i := Next(SweptRows(db.tasks, c), agent, epoch, at.second).value;
  }
}
