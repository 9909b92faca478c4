/** Runs that reach states where three promises of the server fail; the exact conditions are in ServerRuns and
    ServerQueues. */
module ServerWitnesses {
  import opened Core
  import opened Tables
  import opened Text
  import opened Protocol
  import opened Ledgers
  import opened Trust
  import opened Envelope
  import opened ServerState
  import opened ServerInvariants
  import opened ServerTransactions
  import opened ServerAccounts
  import opened ServerRuns

  function At(t: int64): Times {
    Times(t, t, t)
  }

  // ---- Account changes at full audit capacity ----

  function Reads(n: nat): (steps: seq<Step>)
    ensures |steps| == n
  {
    if n == 0 then [] else Reads(n - 1) + [Step(LocalRead, At(1))]
  }

  lemma ReadAdds(w: World, at: Times)
    requires Sound(w.db.ledger) && |w.db.ledger.events| + w.db.ledger.reserved < CAPACITY
    ensures var db := Apply(w, Step(LocalRead, at)).db;
            && |db.ledger.events| == |w.db.ledger.events| + 1 && db.ledger.reserved == w.db.ledger.reserved
            && db == w.db.(ledger := db.ledger)
  {
  }

  /** Local reads fill the log one event at a time. */
  lemma {:induction false} ReadsFill(w: World, n: nat)
    requires Sound(w.db.ledger) && |w.db.ledger.events| + w.db.ledger.reserved + n <= CAPACITY
    ensures var db := After(w, Reads(n)).db;
            && |db.ledger.events| == |w.db.ledger.events| + n && db.ledger.reserved == w.db.ledger.reserved
            && db == w.db.(ledger := db.ledger)
  {
    hide Apply;
    if n > 0 {
      ReadsFill(w, n - 1);
      assert Reads(n)[..n - 1] == Reads(n - 1);
      ReadAdds(After(w, Reads(n - 1)), At(1));
    }
  }

  lemma AfterOne(w: World, step: Step)
    ensures After(w, [step]) == Apply(w, step)
  {
    hide Apply;
    assert [step][..0] == [] && After(w, []) == w;
  }

  function Root(id: string): UserRow {
    UserRow(id, "root", Admin, true, "hash", 1)
  }

  lemma RootCreated(now: int64, step: Step, id: string)
    requires step == Step(AddUser(Root(id)), At(1))
    ensures var db := Apply(Start(now), step).db;
            db.users == [Root(id)] && db.sessions == [] && |db.ledger.events| == 5 && db.ledger.reserved == 0
  {
  }

  /** Account changes are meant to work at full audit capacity. A run that creates one account and then
      fills the log reaches a state where disabling that account fails. */
  lemma ChangeUserCanFail(now: int64) returns (steps: seq<Step>)
    ensures ChangeUser(After(Start(now), steps).db, "root", DisableAccount).result == Err(AuditFailed(AuditFull))
  {
    hide After, Apply, Start, Reads;
    var id := Repeat('0', ID_SIZE);
    var create := Step(AddUser(Root(id)), At(1));
    AfterOne(Start(now), create);
    RootCreated(now, create, id);
    var w := After(Start(now), [create]);
    ReadsFill(w, CAPACITY - 5);
    steps := [create] + Reads(CAPACITY - 5);
    AfterConcat(Start(now), [create], Reads(CAPACITY - 5));
    var db := After(Start(now), steps).db;
    assert FindName(db.users, "root") == Some(0);
    assert Remaining(db.sessions, UserRevoked(id)) == [];
  }

  // ---- Redelivery across the end of a key's window ----

  /** The parties and identifiers of the run below. */
  datatype Cast = Cast(token: string, agent: string, epoch: string, request: string, digest: string, setId: string,
                       certificate: string, current: PublicKey, next: PublicKey)

  predicate WellCast(c: Cast) {
    && Hex(c.token, 64) && Hex(c.agent, 32) && Hex(c.epoch, 32) && Hex(c.request, 32) && Hex(c.digest, 64)
    && Hex(c.setId, 32) && Hex(c.certificate, 64)
    && |c.current| == KEY_SIZE && |c.next| == KEY_SIZE && c.current != c.next
  }

  predicate Roomy(l: Ledger<Event>, n: nat) {
    |l.events| <= n && 0 <= l.reserved <= n
  }

  function Rotation(c: Cast): TrustSet {
    FirstSet(c.current, c.setId, c.next, 400, 1000, 2000)
  }

  function NewNode(c: Cast): NodeRow {
    NodeRow(c.agent, c.epoch, true, "", false, 0)
  }

  function ReadyNode(c: Cast): NodeRow {
    NodeRow(c.agent, c.epoch, true, c.digest, true, 400 * NANOS)
  }

  /** Issue a token and enrol the node with it. */
  lemma Enrolled(db: Db, c: Cast, n: nat)
    requires WellCast(c) && n < 100 && Roomy(db.ledger, n) && db.nodes == [] && db.tokens == []
             && db.fingerprints == {}
    ensures var r := IssueTokenTx(db, c.token, 60 * NANOS, 400 * NANOS, "");
            && r.Ok? && (var tx := Register(r.value, c.token, Registration(c.agent, c.epoch, c.certificate, true), 400);
                         && tx.db == db.(nodes := [NewNode(c)], tokens := tx.db.tokens, ledger := tx.db.ledger,
                                         fingerprints := {c.certificate})
                         && Roomy(tx.db.ledger, n + 2))
  {
    hide Hex;
    assert LiveTokens(db.tokens, 400) == [];
    assert Wrap64(400) == 400 && Wrap64(460) == 460;
    var db1 := IssueTokenTx(db, c.token, 60 * NANOS, 400 * NANOS, "").value;
    assert db1.tokens == [TokenRow(Sha256(c.token), 460, false)];
    assert LiveToken(db1.tokens[0], 400);
    assert FindLive(db1.tokens, Sha256(c.token), 400).Some?;
  }

  /** A ready heartbeat, then the signer. */
  lemma Prepared(db: Db, c: Cast, n: nat)
    requires WellCast(c) && n < 100 && Roomy(db.ledger, n) && db.nodes == [NewNode(c)]
             && db.settings == Settings(None, None, false)
    ensures var db1 := Heartbeat(db, c.agent, c.epoch, true, c.digest, true, 400 * NANOS).db;
            var db2 := ConfigureSigner(db1, c.current).db;
            && db2 == db.(nodes := [ReadyNode(c)], settings := Settings(Some(Sha256(c.current)), None, false),
                 ledger := db2.ledger)
            && Roomy(db2.ledger, n + 1)
  {
    hide Hex;
    assert FindNode(db.nodes, c.agent) == Some(0);
  }

  lemma RotationFacts(c: Cast)
    requires WellCast(c)
    ensures Valid(Rotation(c)) && Accepted(None, Sha256(c.current), Rotation(c))
    ensures Ids(Rotation(c).keys) == [Sha256(c.current), Sha256(c.next)]
    ensures Key(Rotation(c).keys, Sha256(c.current)) == Some(NewTrustKey(c.current, 70, 1000, true))
  {
    FirstSetAccepted(c.current, c.setId, c.next, 400, 1000, 2000);
    hide Valid;
  }

  /** Pause, install the set that stages the next key, resume. */
  lemma Rotated(db: Db, c: Cast, n: nat)
    requires WellCast(c) && n < 100 && Roomy(db.ledger, n) && db.tasks == []
             && db.settings == Settings(Some(Sha256(c.current)), None, false)
    ensures var db1 := PauseDispatch(db, true, 400).db;
            var db2 := InstallTrust(db1, KeyBaseline(Some(Sha256(c.current))), Rotation(c), At(400)).db;
            var db3 := PauseDispatch(db2, false, 400).db;
            && db3 == db.(settings := Settings(Some(Sha256(c.current)), Some(Rotation(c)), false), ledger := db3.ledger)
            && Roomy(db3.ledger, n + 3)
  {
    hide Valid, Accepted, Key, Rotation;
    RotationFacts(c);
    assert Sha256(c.current) in Ids(Rotation(c).keys) by { assert Ids(Rotation(c).keys)[0] == Sha256(c.current); }
  }

  function TheOrder(c: Cast): Order {
    Order(c.request, c.agent, SystemInfo, "", "op", 300 * NANOS, 700 * NANOS)
  }

  function TheTask(c: Cast): Task {
    Task(c.request, c.agent, c.epoch, 700, 1000, SystemInfo, "", "op", c.digest)
  }

  lemma TaskFacts(c: Cast)
    requires WellCast(c)
    ensures ValidTask(TheTask(c)) && NewTask(TheOrder(c), ReadyNode(c), 700) == TheTask(c)
    ensures CheckTask(Rotation(c), TheTask(c), Sha256(c.current), 700)
  {
    hide Hex, Key;
    RotationFacts(c);
    assert Wrap64(1000) == 1000;
    assert Identifier("op");
  }

  /** The state just before the first delivery. */
  predicate Rotating(db: Db, c: Cast, n: nat) {
    && Roomy(db.ledger, n) && db.nodes == [ReadyNode(c)]
    && db.settings == Settings(Some(Sha256(c.current)), Some(Rotation(c)), false)
  }

  /** Queue a task that ends exactly when the current key does. */
  lemma Queued(db: Db, c: Cast, n: nat)
    requires WellCast(c) && n < 100 && Rotating(db, c, n) && db.tasks == []
    ensures var r := EnqueueTx(db, TheOrder(c), At(700));
            && r.Ok? && r.value == db.(tasks := [QueuedRow(TheTask(c))], ledger := r.value.ledger)
            && Roomy(r.value.ledger, n + 2)
  {
    hide Hex, ValidTask, CheckTask, Rotation, Valid;
    RotationFacts(c);
    TaskFacts(c);
    assert FindNode(db.nodes, c.agent) == Some(0);
    assert CloseTx(db, ExpireQueued(c.agent, 700)) == Ok(db);
    assert Sha256(c.current) in Ids(Rotation(c).keys) by { assert Ids(Rotation(c).keys)[0] == Sha256(c.current); }
    assert Sum(db.tasks, PendingOf(c.agent)) == 0;
  }

  function TheEnvelope(c: Cast): Envelope {
    Versioned(2, c.setId, Sha256(c.current), TaskText(TheTask(c), ""),
              Signed(c.current, Keyed(c.setId, Sha256(c.current), TaskText(TheTask(c), ""))))
  }

  function DispatchedRow(c: Cast): TaskRow {
    QueuedRow(TheTask(c)).(state := Dispatched, envelope := Some(TheEnvelope(c)))
  }

  lemma NothingToClose(db: Db, c: Sweep, row: TaskRow)
    requires db.tasks == [row] && !Picks(c, row)
    ensures CloseTx(db, c) == Ok(db)
  {
    hide Picks;
    assert TryClose(db, c, 0) == Ok(db);
  }

  lemma OnlyRow(tasks: seq<TaskRow>, row: TaskRow, agent: string, epoch: string, now: int64)
    requires tasks == [row] && Deliverable(row, agent, epoch, now)
    ensures Next(tasks, agent, epoch, now) == Some(0)
  {
  }

  /** Deliver it once. */
  lemma Delivered(db: Db, c: Cast, n: nat)
    requires WellCast(c) && n < 100 && Rotating(db, c, n) && db.tasks == [QueuedRow(TheTask(c))]
             && db.ledger.reserved >= 1
    ensures var tx := Poll(db, c.agent, c.epoch, true, c.digest, c.current, At(700));
            tx.db == db.(tasks := [DispatchedRow(c)], ledger := tx.db.ledger)
  {
    hide Hex, ValidTask, CheckTask, Rotation, Valid, CloseTx, Next;
    RotationFacts(c);
    RotationId(c);
    TaskFacts(c);
    assert FindNode(db.nodes, c.agent) == Some(0);
    NothingToClose(db, ExpireQueued(c.agent, 700), QueuedRow(TheTask(c)));
    OnlyRow(db.tasks, QueuedRow(TheTask(c)), c.agent, c.epoch, 700);
    assert Sha256(c.current) in Ids(Rotation(c).keys) by { assert Ids(Rotation(c).keys)[0] == Sha256(c.current); }
  }

  lemma RotationId(c: Cast)
    ensures Rotation(c).id == c.setId
  {
  }

  /** Poll again when the key's window closes between selecting the row and rechecking it. */
  lemma TooLate(db: Db, c: Cast)
    requires WellCast(c) && db.nodes == [ReadyNode(c)] && db.tasks == [DispatchedRow(c)]
    requires db.settings == Settings(Some(Sha256(c.current)), Some(Rotation(c)), false)
    ensures Poll(db, c.agent, c.epoch, true, c.digest, c.current, Times(999, 999, 1000)).result == Err(BadSignature)
  {
    hide Hex, ValidTask, Rotation, Valid, CloseTx, Next;
    RotationFacts(c);
    RotationId(c);
    TaskFacts(c);
    assert FindNode(db.nodes, c.agent) == Some(0);
    NothingToClose(db, ExpireQueued(c.agent, 999), DispatchedRow(c));
    OnlyRow(db.tasks, DispatchedRow(c), c.agent, c.epoch, 999);
    assert Sha256(c.current) in Ids(Rotation(c).keys) by { assert Ids(Rotation(c).keys)[0] == Sha256(c.current); }
  }

  // ---- Putting the run together ----

  lemma Extend(w: World, steps: seq<Step>, s: Step)
    requires Nondecreasing(w, steps) && Ordered(s.at) && After(w, steps).now <= s.at.first
    ensures After(w, steps + [s]) == Apply(After(w, steps), s) && Nondecreasing(w, steps + [s])
  {
    hide Apply;
    assert (steps + [s])[..|steps|] == steps;
  }

  lemma Applied(w: World, s: Step)
    ensures Apply(w, s).db == NextDb(w, s.op, s.at) && Apply(w, s).now == s.at.third
  {
    hide NextDb;
  }

  lemma NothingYet(w: World)
    ensures After(w, []) == w && Nondecreasing(w, [])
  {
  }

  lemma EnrolSteps(w: World, c: Cast, n: nat) returns (steps: seq<Step>)
    requires WellCast(c) && n < 90 && Roomy(w.db.ledger, n) && w.db.nodes == [] && w.db.tokens == [] && w.db.tasks == []
    requires w.db.settings == Settings(None, None, false) && w.now <= 400 && w.db.fingerprints == {}
    ensures Nondecreasing(w, steps) && After(w, steps).now == 400
    ensures var db := After(w, steps).db;
            && Roomy(db.ledger, n + 3) && db.nodes == [ReadyNode(c)] && db.tasks == []
            && db.settings == Settings(Some(Sha256(c.current)), None, false)
  {
    hide After, Apply, Nondecreasing, WellCast, Roomy, IssueTokenTx, Register, Heartbeat, ConfigureSigner;
    var a := Step(IssueEnrolment(c.token, 60 * NANOS, 400 * NANOS), At(400));
    var b := Step(Enroll(c.token, Registration(c.agent, c.epoch, c.certificate, true)), At(400));
    NothingYet(w);
    Extend(w, [], a);
    Applied(w, a);
    Extend(w, [] + [a], b);
    Applied(After(w, [] + [a]), b);
    Enrolled(w.db, c, n);
    var s2 := [] + [a] + [b];
    var w2 := After(w, s2);
    var d := Step(Beat(c.agent, c.epoch, true, c.digest, true, 400 * NANOS), At(400));
    var e := Step(Configure(c.current), At(400));
    Extend(w, s2, d);
    Applied(w2, d);
    Extend(w, s2 + [d], e);
    Applied(After(w, s2 + [d]), e);
    Prepared(w2.db, c, n + 2);
    steps := s2 + [d] + [e];
  }

  lemma RotateSteps(w: World, before: seq<Step>, c: Cast, n: nat) returns (steps: seq<Step>)
    requires WellCast(c) && n < 90 && Nondecreasing(w, before) && After(w, before).now == 400
    requires var db := After(w, before).db;
             && Roomy(db.ledger, n) && db.nodes == [ReadyNode(c)] && db.tasks == []
             && db.settings == Settings(Some(Sha256(c.current)), None, false)
    ensures Nondecreasing(w, steps) && After(w, steps).now == 400
    ensures Rotating(After(w, steps).db, c, n + 3) && After(w, steps).db.tasks == []
  {
    hide After, Apply, Nondecreasing, WellCast, Roomy, PauseDispatch, InstallTrust, Rotation;
    var a := Step(Pause(true), At(400));
    var b := Step(Install(KeyBaseline(Some(Sha256(c.current))), Rotation(c)), At(400));
    var d := Step(Pause(false), At(400));
    Extend(w, before, a);
    Applied(After(w, before), a);
    Extend(w, before + [a], b);
    Applied(After(w, before + [a]), b);
    Extend(w, before + [a] + [b], d);
    Applied(After(w, before + [a] + [b]), d);
    Rotated(After(w, before).db, c, n);
    steps := before + [a] + [b] + [d];
  }

  lemma DeliverSteps(w: World, before: seq<Step>, c: Cast, n: nat) returns (steps: seq<Step>)
    requires WellCast(c) && n < 90 && Nondecreasing(w, before) && After(w, before).now == 400
    requires Rotating(After(w, before).db, c, n) && After(w, before).db.tasks == []
    ensures Nondecreasing(w, steps) && After(w, steps).now == 700
    ensures var db := After(w, steps).db;
            && db.nodes == [ReadyNode(c)] && db.tasks == [DispatchedRow(c)]
            && db.settings == Settings(Some(Sha256(c.current)), Some(Rotation(c)), false)
  {
    hide After, Apply, Nondecreasing, WellCast, EnqueueTx, Poll, Rotation;
    var a := Step(Enqueue(TheOrder(c)), At(700));
    var b := Step(PollTask(c.agent, c.epoch, true, c.digest, c.current), At(700));
    Extend(w, before, a);
    Applied(After(w, before), a);
    Queued(After(w, before).db, c, n);
    QueuedReserves(After(w, before).db, c);
    Extend(w, before + [a], b);
    Applied(After(w, before + [a]), b);
    Delivered(After(w, before + [a]).db, c, n + 2);
    steps := before + [a] + [b];
  }

  lemma QueuedReserves(db: Db, c: Cast)
    requires db.ledger.reserved >= 0 && db.tasks == [] && EnqueueTx(db, TheOrder(c), At(700)).Ok?
    ensures EnqueueTx(db, TheOrder(c), At(700)).value.ledger.reserved >= 2
  {
    hide Hex, ValidTask, CheckTask, SettingsOk, RecentlyReady, FindNode;
    assert CloseTx(db, ExpireQueued(c.agent, 700)) == Ok(db);
  }

  lemma SomeCast() returns (c: Cast)
    ensures WellCast(c)
  {
    c := Cast(Repeat('d', 2 * ID_SIZE), Repeat('a', ID_SIZE), Repeat('b', ID_SIZE), Repeat('c', ID_SIZE),
              Repeat('e', 2 * ID_SIZE), Repeat('f', ID_SIZE), Repeat('9', 2 * ID_SIZE), Repeat('x', ID_SIZE),
              Repeat('y', ID_SIZE));
    assert c.current[0] != c.next[0];
  }

  /** A run with a clock that never goes back reaches a state where a poll finds the signature of a stored
      envelope invalid: the task ends when its key does, and the second passes between the two readings. */
  lemma RedeliveryCanFail() returns (c: Cast, steps: seq<Step>)
    ensures Nondecreasing(Start(1), steps) && After(Start(1), steps).now <= 999
    ensures Poll(After(Start(1), steps).db, c.agent, c.epoch, true, c.digest, c.current,
              Times(999, 999, 1000)).result == Err(BadSignature)
  {
    hide After, Nondecreasing, WellCast, Poll, Rotation;
    c := SomeCast();
    steps := EnrolSteps(Start(1), c, 4);
    steps := RotateSteps(Start(1), steps, c, 7);
    steps := DeliverSteps(Start(1), steps, c, 10);
    TooLate(After(Start(1), steps).db, c);
  }

  // ---- A queued task that its key's window no longer holds ----

  /** A set that ends the current key ten seconds before the task of the run ends. */
  function ShortRotation(c: Cast): TrustSet {
    FirstSet(c.current, c.setId, c.next, 680, 990, 2000)
  }

  lemma ShortRotationFacts(c: Cast)
    requires WellCast(c)
    ensures Valid(ShortRotation(c)) && Accepted(None, Sha256(c.current), ShortRotation(c))
    ensures Ids(ShortRotation(c).keys) == [Sha256(c.current), Sha256(c.next)]
    ensures Key(ShortRotation(c).keys, Sha256(c.current)) == Some(NewTrustKey(c.current, 350, 990, true))
  {
    FirstSetAccepted(c.current, c.setId, c.next, 680, 990, 2000);
    hide Valid;
  }

  /** Queue a task while no trust set is installed. */
  lemma QueuedUnderOneKey(db: Db, c: Cast, n: nat)
    requires WellCast(c) && n < 100 && Roomy(db.ledger, n) && db.nodes == [ReadyNode(c)] && db.tasks == []
             && db.settings == Settings(Some(Sha256(c.current)), None, false)
    ensures var r := EnqueueTx(db, TheOrder(c), At(700));
            && r.Ok? && r.value == db.(tasks := [QueuedRow(TheTask(c))], ledger := r.value.ledger)
            && Roomy(r.value.ledger, n + 2)
  {
    hide Hex, ValidTask, CheckTask;
    TaskFacts(c);
    assert FindNode(db.nodes, c.agent) == Some(0);
    assert CloseTx(db, ExpireQueued(c.agent, 700)) == Ok(db);
    assert Sum(db.tasks, PendingOf(c.agent)) == 0;
  }

  /** Pause, install the set, resume: no dispatched envelope stands in the way. */
  lemma RotatedOver(db: Db, c: Cast, n: nat)
    requires WellCast(c) && n < 100 && Roomy(db.ledger, n) && db.tasks == [QueuedRow(TheTask(c))]
             && db.settings == Settings(Some(Sha256(c.current)), None, false)
    ensures var db1 := PauseDispatch(db, true, 700).db;
            var db2 := InstallTrust(db1, KeyBaseline(Some(Sha256(c.current))), ShortRotation(c), At(700)).db;
            var db3 := PauseDispatch(db2, false, 700).db;
            db3 == db.(settings := Settings(Some(Sha256(c.current)), Some(ShortRotation(c)), false),
                ledger := db3.ledger)
  {
    hide Valid, Accepted, Key, ShortRotation;
    ShortRotationFacts(c);
    var ids := Ids(ShortRotation(c).keys);
    assert Sha256(c.current) in ids by { assert ids[0] == Sha256(c.current); }
  }

  lemma CannotBeSigned(db: Db, c: Cast)
    requires WellCast(c) && db.nodes == [ReadyNode(c)] && db.tasks == [QueuedRow(TheTask(c))]
    requires db.settings == Settings(Some(Sha256(c.current)), Some(ShortRotation(c)), false)
    ensures Poll(db, c.agent, c.epoch, true, c.digest, c.current, At(700)).result == Err(CannotSign)
  {
    hide Hex, ValidTask, ShortRotation, Valid, CloseTx, Next;
    ShortRotationFacts(c);
    TaskFacts(c);
    assert FindNode(db.nodes, c.agent) == Some(0);
    NothingToClose(db, ExpireQueued(c.agent, 700), QueuedRow(TheTask(c)));
    OnlyRow(db.tasks, QueuedRow(TheTask(c)), c.agent, c.epoch, 700);
    var ids := Ids(ShortRotation(c).keys);
    assert Sha256(c.current) in ids by { assert ids[0] == Sha256(c.current); }
  }

  lemma RotateOverSteps(w: World, before: seq<Step>, c: Cast, n: nat) returns (steps: seq<Step>)
    requires WellCast(c) && n < 90 && Nondecreasing(w, before) && After(w, before).now == 400
    requires var db := After(w, before).db;
             && Roomy(db.ledger, n) && db.nodes == [ReadyNode(c)] && db.tasks == []
             && db.settings == Settings(Some(Sha256(c.current)), None, false)
    ensures Nondecreasing(w, steps) && After(w, steps).now == 700
    ensures var db := After(w, steps).db;
            && db.nodes == [ReadyNode(c)] && db.tasks == [QueuedRow(TheTask(c))]
            && db.settings == Settings(Some(Sha256(c.current)), Some(ShortRotation(c)), false)
  {
    hide After, Apply, Nondecreasing, WellCast, Roomy, PauseDispatch, InstallTrust, EnqueueTx, ShortRotation;
    var o := Step(Enqueue(TheOrder(c)), At(700));
    var a := Step(Pause(true), At(700));
    var b := Step(Install(KeyBaseline(Some(Sha256(c.current))), ShortRotation(c)), At(700));
    var d := Step(Pause(false), At(700));
    Extend(w, before, o);
    Applied(After(w, before), o);
    QueuedUnderOneKey(After(w, before).db, c, n);
    var s1 := before + [o];
    Extend(w, s1, a);
    Applied(After(w, s1), a);
    Extend(w, s1 + [a], b);
    Applied(After(w, s1 + [a]), b);
    Extend(w, s1 + [a] + [b], d);
    Applied(After(w, s1 + [a] + [b]), d);
    RotatedOver(After(w, s1).db, c, n + 2);
    steps := s1 + [a] + [b] + [d];
  }

  /** A run with a clock that never goes back reaches a state where a queued task can no longer be signed: the trust
      set installed over it ends the selected key ten seconds before the task ends. */
  lemma FirstDeliveryCanFail() returns (c: Cast, steps: seq<Step>)
    ensures Nondecreasing(Start(1), steps) && After(Start(1), steps).now == 700
    ensures Poll(After(Start(1), steps).db, c.agent, c.epoch, true, c.digest, c.current, At(700)).result
            == Err(CannotSign)
  {
    hide After, Nondecreasing, WellCast, Poll, ShortRotation;
    c := SomeCast();
    steps := EnrolSteps(Start(1), c, 4);
    steps := RotateOverSteps(Start(1), steps, c, 7);
    CannotBeSigned(After(Start(1), steps).db, c);
  }
}
