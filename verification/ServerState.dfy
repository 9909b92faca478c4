/** The server's dispatch store and its transactions (internal/state: tasks.go, signers.go, admin.go,
    management.go, state.go). Each function maps the committed database before a transaction to the one
    after it; a transaction that rolls back returns its input. */
module ServerState {
  import opened Core
  import opened Tables
  import opened Text
  import opened Protocol
  import opened Ledgers
  import opened Trust
  import opened Envelope

  const MAX_NODES := 1000
  const MAX_STORED_TASKS := 10000
  const MAX_PENDING := 10
  const MAX_USERS := 32
  const MAX_SESSIONS := 128
  const MAX_OWNED := 8
  const SESSION_IDLE := 1800
  const SESSION_LIFETIME := 28800
  const NANOS := 1_000_000_000

  // ---- Tables ----

  datatype NodeRow = NodeRow(
    agent: string, epoch: string, enabled: bool, policyDigest: string, ready: bool, receivedAt: int)

  /** An enrolment token, known only by its digest. */
  datatype TokenRow = TokenRow(token: Sha256<string>, expiresAt: int64, consumed: bool)

  datatype TaskState = Queued | Dispatched | Terminal(status: Status)

  /** The code column: why the server closed a task, or what the probe reported. */
  datatype Closing = StillOpen | ExpiredBeforeDispatch | NodeWasDisabled | SignerChanged | Reported(code: Code)

  /** One row of the tasks table; rows are never deleted, so its position is its sequence number. */
  datatype TaskRow = TaskRow(
    request: string, agent: string, epoch: string, payload: Payload, envelope: Option<Envelope>,
    state: TaskState, expiresAt: int64, result: Option<ResultText>, closing: Closing)

  datatype Role = Admin | ReadOnly

  datatype UserRow = UserRow(id: string, name: string, role: Role, enabled: bool, password: string, generation: int)

  datatype SessionRow = SessionRow(
    id: string, token: Sha256<string>, user: string, createdAt: int64, lastUsed: int64, expiresAt: int64)

  datatype Settings = Settings(keyId: Option<KeyId>, trust: Option<TrustSet>, paused: bool)

  datatype Kind =
    | StateInitialized | StateMigrated | TokenIssued | NodeEnrolled | NodeDisabled | DisableUnchanged
    | TaskQueued | TaskDispatched | TaskExpired | TaskCancelled | ResultReceived
    | SignerConfigured | DispatchChanged | TrustChanged | SignerSelected
    | UserCreated | UserChanged | AllSessionsRevoked | RestoreQuarantined
    | LoginLimited | LoginAttempted | LoginFailed | LoginSucceeded
    | SessionExpired | SessionRevoked | SessionLogout | AdminDenied | AdminRejected | RecordsRead
    | CertificateRenewed | CertificateRevoked

  datatype Event = Event(kind: Kind, subject: string)

  datatype Db = Db(
    nodes: seq<NodeRow>, fingerprints: set<string>, tokens: seq<TokenRow>, tasks: seq<TaskRow>, settings: Settings,
    users: seq<UserRow>, sessions: seq<SessionRow>, adminHigh: int64, ledger: Ledger<Event>)

  datatype Error =
    | BadRequest | Unauthorised | Forbidden | Limited | Unavailable | NotFound | NoSuchNode | NoSuchUser | Conflict
    | NodeNotEnabled | NotReady | NotConfigured | SignerMismatch | DispatchPaused | NotPaused | QueueFull
    | InvalidTask | OutsideKeyWindow | CorruptTask | CannotSign | BadSignature | BadSettings
    | TooLarge | IdentityMismatch | NoAssignment | TypeMismatch | WrongPolicy | Overwrite | NotDispatched
    | StaleBaseline | RejectedTransition | SelectedSignerRetired | LiveEnvelopes | QueuedTasks | AuditCorrupt
    | AuditFailed(cause: AuditError) | BadStamp

  datatype Tx<+T> = Tx(db: Db, result: Result<T, Error>)

  /** Clock readings in seconds that one transaction takes, in order; `rows` holds those that the loop of
      InstallSignerTrust takes, one per row of the table. */
  datatype Times = Times(first: int64, second: int64, third: int64, rows: seq<int64> := [])

  function RowTime(at: Times, i: nat): int64 {
    if i < |at.rows| then at.rows[i] else at.second
  }

  function FindNode(nodes: seq<NodeRow>, agent: string): (r: Option<nat>)
    ensures r.Some? ==> r.value < |nodes| && nodes[r.value].agent == agent
    ensures r.None? ==> forall i :: 0 <= i < |nodes| ==> nodes[i].agent != agent
  {
    if nodes == [] then None
    else if nodes[|nodes| - 1].agent == agent then Some(|nodes| - 1)
    else FindNode(nodes[..|nodes| - 1], agent)
  }

  function FindTask(tasks: seq<TaskRow>, request: string): (r: Option<nat>)
    ensures r.Some? ==> r.value < |tasks| && tasks[r.value].request == request
    ensures r.None? ==> forall i :: 0 <= i < |tasks| ==> tasks[i].request != request
  {
    if tasks == [] then None
    else if tasks[|tasks| - 1].request == request then Some(|tasks| - 1)
    else FindTask(tasks[..|tasks| - 1], request)
  }

  function FindUser(users: seq<UserRow>, id: string): (r: Option<nat>)
    ensures r.Some? ==> r.value < |users| && users[r.value].id == id
    ensures r.None? ==> forall i :: 0 <= i < |users| ==> users[i].id != id
  {
    if users == [] then None
    else if users[|users| - 1].id == id then Some(|users| - 1)
    else FindUser(users[..|users| - 1], id)
  }

  function FindName(users: seq<UserRow>, name: string): (r: Option<nat>)
    ensures r.Some? ==> r.value < |users| && users[r.value].name == name
    ensures r.None? ==> forall i :: 0 <= i < |users| ==> users[i].name != name
  {
    if users == [] then None
    else if users[|users| - 1].name == name then Some(|users| - 1)
    else FindName(users[..|users| - 1], name)
  }

  function FindToken(sessions: seq<SessionRow>, token: Sha256<string>): (r: Option<nat>)
    ensures r.Some? ==> r.value < |sessions| && sessions[r.value].token == token
    ensures r.None? ==> forall i :: 0 <= i < |sessions| ==> sessions[i].token != token
  {
    if sessions == [] then None
    else if sessions[|sessions| - 1].token == token then Some(|sessions| - 1)
    else FindToken(sessions[..|sessions| - 1], token)
  }

  /** Reserved completion events of one row. */
  function SlotsOf(r: TaskRow): nat {
    match r.state
    case Queued => 2
    case Dispatched => 1
    case Terminal(_) => 0
  }

  function Slots(): TaskRow -> nat {
    (r: TaskRow) => SlotsOf(r)
  }

  function EnabledNode(): NodeRow -> nat {
    (n: NodeRow) => if n.enabled then 1 else 0
  }

  function PendingOf(agent: string): TaskRow -> nat {
    (r: TaskRow) => if r.agent == agent && !r.state.Terminal? then 1 else 0
  }

  function OwnedBy(user: string): SessionRow -> nat {
    (s: SessionRow) => if s.user == user then 1 else 0
  }

  /** The sum that the startup check compares with the reserved counter. */
  function Expected(db: Db): nat {
    Sum(db.nodes, EnabledNode()) + |db.sessions| + Sum(db.tasks, Slots())
  }

  /** The last check of migrate, made whenever the server starts. */
  predicate StartupCheck(db: Db) {
    Sound(db.ledger) && db.ledger.reserved == Expected(db)
  }

  /** A new store after all schema migrations. */
  function Fresh(): Db {
    Db([], {}, [], [], Settings(None, None, false), [], [], 0,
       Ledger([Event(StateInitialized, ""), Event(StateMigrated, ""), Event(StateMigrated, ""),
           Event(StateMigrated, "")], 0))
  }

  function Note(db: Db, kind: Kind, subject: string, delta: int): (r: Result<Db, Error>)
    ensures r.Ok? ==> r.value == db.(ledger := r.value.ledger)
    ensures r.Err? ==> r.error.AuditFailed?
  {
    match Append(db.ledger, Event(kind, subject), delta)
    case Err(x) => Err(AuditFailed(x))
    case Ok(l) => Ok(db.(ledger := l))
  }

  /** A transaction that commits when its work succeeds and rolls back otherwise. */
  function Committed(db: Db, work: Result<Db, Error>): Tx<()> {
    match work
    case Err(x) => Tx(db, Err(x))
    case Ok(db') => Tx(db', Ok(()))
  }

  /** A transaction whose audit events are stamped with `stamp`, the host's clock in nanoseconds: an event with a time
      that is not positive is refused, and the transaction with it. */
  function Stamped<T>(db: Db, tx: Tx<T>, stamp: int): Tx<T> {
    if stamp > 0 || tx.db.ledger.events == db.ledger.events then tx else Tx(db, Err(BadStamp))
  }

  // ---- Closing tasks: expireTasks, cancelNodeTasks and CancelQueuedForSignerChange ----

  datatype Sweep = ExpireQueued(agent: string, now: int64) | CancelNode(agent: string) | CancelQueued

  predicate Picks(c: Sweep, r: TaskRow) {
    match c
    case ExpireQueued(agent, now) => r.agent == agent && r.state.Queued? && r.expiresAt <= now
    case CancelNode(agent) => r.agent == agent && !r.state.Terminal?
    case CancelQueued => r.state.Queued?
  }

  /** The row after a sweep. */
  function Swept(c: Sweep, r: TaskRow): TaskRow {
    if !Picks(c, r) then r
    else
      match c
      case ExpireQueued(_, _) => r.(state := Terminal(Expired), closing := ExpiredBeforeDispatch)
      case CancelNode(_) =>
        r.(state := Terminal(if r.state.Queued? then Rejected else Indeterminate), closing := NodeWasDisabled)
      case CancelQueued => r.(state := Terminal(Rejected), closing := SignerChanged)
  }

  function SweepEvent(c: Sweep, r: TaskRow): Event {
    Event(if c.ExpireQueued? then TaskExpired else TaskCancelled, r.request)
  }

  function PickedSlots(c: Sweep): TaskRow -> nat {
    (r: TaskRow) => if Picks(c, r) then SlotsOf(r) else 0
  }

  function SweptRows(tasks: seq<TaskRow>, c: Sweep): (r: seq<TaskRow>)
    ensures |r| == |tasks| && forall i :: 0 <= i < |r| ==> r[i] == Swept(c, tasks[i])
  {
    if tasks == [] then [] else SweptRows(tasks[..|tasks| - 1], c) + [Swept(c, tasks[|tasks| - 1])]
  }

  function SweepEvents(tasks: seq<TaskRow>, c: Sweep): seq<Event> {
    if tasks == [] then []
    else
      var last := tasks[|tasks| - 1];
      SweepEvents(tasks[..|tasks| - 1], c) + if Picks(c, last) then [SweepEvent(c, last)] else []
  }

  /** The loop itself: row by row, with every append checked against the log. */
  function TryClose(db: Db, c: Sweep, n: nat): (r: Result<Db, Error>)
    requires n <= |db.tasks|
    ensures r.Ok? ==> |r.value.tasks| == |db.tasks| && r.value == db.(tasks := r.value.tasks, ledger := r.value.ledger)
  {
    if n == 0 then Ok(db)
    else
      match TryClose(db, c, n - 1)
      case Err(x) => Err(x)
      case Ok(tx) =>
        var row := tx.tasks[n - 1];
        if !Picks(c, row) then Ok(tx)
        else if DecodeTask(row.payload).None? then Err(CorruptTask)
        else
          match Append(tx.ledger, SweepEvent(c, row), -(SlotsOf(row) as int))
          case Err(x) => Err(AuditFailed(x))
          case Ok(l) => Ok(tx.(tasks := tx.tasks[n - 1 := Swept(c, row)], ledger := l))
  }

  function CloseTx(db: Db, c: Sweep): Result<Db, Error> {
    TryClose(db, c, |db.tasks|)
  }

  /** The outcome of the loop when it succeeds: all picked rows become terminal, one event is written for
      each, and their slots are given back. In every state the store reaches it does succeed. */
  function Close(db: Db, c: Sweep): Db {
    db.(tasks := SweptRows(db.tasks, c),
        ledger := Ledger(db.ledger.events + SweepEvents(db.tasks, c),
            db.ledger.reserved - Sum(db.tasks, PickedSlots(c))))
  }

  // ---- Ending sessions: expireSessionsTx, revokeUserSessionsTx and revokeSessionTx ----

  datatype Ending = Stale(now: int64) | UserRevoked(user: string) | LoggedOut(id: string)

  predicate Ends(e: Ending, s: SessionRow) {
    match e
    case Stale(now) => s.expiresAt <= now || s.lastUsed <= now - SESSION_IDLE
    case UserRevoked(user) => s.user == user
    case LoggedOut(id) => s.id == id
  }

  function EndingEvent(e: Ending, s: SessionRow): Event {
    match e
    case Stale(_) => Event(SessionExpired, s.id)
    case UserRevoked(_) => Event(SessionRevoked, s.id)
    case LoggedOut(_) => Event(SessionLogout, s.id)
  }

  function Remaining(sessions: seq<SessionRow>, e: Ending): (r: seq<SessionRow>)
    ensures |r| <= |sessions|
  {
    if sessions == [] then []
    else
      var last := sessions[|sessions| - 1];
      Remaining(sessions[..|sessions| - 1], e) + if Ends(e, last) then [] else [last]
  }

  function EndingEvents(sessions: seq<SessionRow>, e: Ending): seq<Event> {
    if sessions == [] then []
    else
      var last := sessions[|sessions| - 1];
      EndingEvents(sessions[..|sessions| - 1], e) + if Ends(e, last) then [EndingEvent(e, last)] else []
  }

  /** The loop itself over the first n sessions: those kept and the log, with every append checked. */
  function TryEnd(db: Db, e: Ending, n: nat): Result<(seq<SessionRow>, Ledger<Event>), Error>
    requires n <= |db.sessions|
  {
    if n == 0 then Ok(([], db.ledger))
    else
      match TryEnd(db, e, n - 1)
      case Err(x) => Err(x)
      case Ok((kept, ledger)) =>
        var s := db.sessions[n - 1];
        if !Ends(e, s) then Ok((kept + [s], ledger))
        else
          match Append(ledger, EndingEvent(e, s), -1)
          case Err(x) => Err(AuditFailed(x))
          case Ok(l) => Ok((kept, l))
  }

  function EndTx(db: Db, e: Ending): Result<Db, Error> {
    match TryEnd(db, e, |db.sessions|)
    case Err(x) => Err(x)
    case Ok((kept, l)) => Ok(db.(sessions := kept, ledger := l))
  }

  /** The outcome of the loop when it succeeds: sessions end with one event each, which uses the slot
      reserved at login. In every state the store reaches it does succeed. */
  function End(db: Db, e: Ending): Db {
    var rest := Remaining(db.sessions, e);
    db.(sessions := rest,
        ledger := Ledger(db.ledger.events + EndingEvents(db.sessions, e),
            db.ledger.reserved - (|db.sessions| - |rest|)))
  }

  // ---- Nodes ----

  predicate IsEnabled(db: Db, agent: string, epoch: string) {
    var i := FindNode(db.nodes, agent);
    i.Some? && db.nodes[i.value].enabled && db.nodes[i.value].epoch == epoch
  }

  predicate LiveToken(r: TokenRow, now: int64) {
    !r.consumed && r.expiresAt > now
  }

  function LiveTokens(tokens: seq<TokenRow>, now: int64): (r: seq<TokenRow>)
    ensures forall x :: x in r <==> x in tokens && LiveToken(x, now)
  {
    if tokens == [] then []
    else
      var last := tokens[|tokens| - 1];
      LiveTokens(tokens[..|tokens| - 1], now) + if LiveToken(last, now) then [last] else []
  }

  /** The position of a live token with this digest. */
  function FindLive(tokens: seq<TokenRow>, token: Sha256<string>, now: int64): (r: Option<nat>)
    ensures r.Some? ==> r.value < |tokens| && tokens[r.value].token == token && LiveToken(tokens[r.value], now)
    ensures r.None? ==> forall i :: 0 <= i < |tokens| && tokens[i].token == token ==> !LiveToken(tokens[i], now)
  {
    if tokens == [] then None
    else
      var last := tokens[|tokens| - 1];
      if last.token == token && LiveToken(last, now) then Some(|tokens| - 1)
      else FindLive(tokens[..|tokens| - 1], token, now)
  }

  const MAX_TOKEN_LIFETIME := 900

  /** issueTokenTx; `token` is the random secret drawn for it, times are in nanoseconds. */
  function IssueTokenTx(db: Db, token: string, ttl: int, nanos: int, actor: string): Result<Db, Error> {
    var live := LiveTokens(db.tokens, Wrap64(nanos / NANOS));
    if ttl < NANOS || ttl > MAX_TOKEN_LIFETIME * NANOS then Err(BadRequest)
    else if |live| >= MAX_NODES then Err(Limited)
    else if exists i :: 0 <= i < |live| && live[i].token == Sha256(token) then Err(Conflict)
    else Note(db.(tokens := live + [TokenRow(Sha256(token), Wrap64((nanos + ttl) / NANOS), false)]), TokenIssued,
        actor, 0)
  }

  function Consumed(tokens: seq<TokenRow>): (r: seq<TokenRow>)
    ensures |r| == |tokens| && forall i :: 0 <= i < |r| ==> r[i] == tokens[i].(consumed := true)
  {
    if tokens == [] then [] else Consumed(tokens[..|tokens| - 1]) + [tokens[|tokens| - 1].(consumed := true)]
  }

  /** What a leaf certificate says of its node, its fingerprint, and whether the issuer given with it signed it. */
  datatype Leaf = Leaf(agent: string, epoch: string, fingerprint: string, signed: bool)

  datatype Registration = Registration(
    agent: string, epoch: string, certificate: string, enabled: bool, leaf: Option<Leaf> := None)

  predicate RegistrationOk(r: Registration) {
    && Hex(r.agent, 32) && Hex(r.epoch, 32) && Hex(r.certificate, 64) && r.enabled
    && (r.leaf.Some? ==> r.leaf.value == Leaf(r.agent, r.epoch, r.certificate, true))
  }

  /** RegisterFrom: one token enrols one node, under a certificate that no node had before. */
  function Register(db: Db, token: string, r: Registration, now: int64): Tx<()> {
    if !Hex(token, 64) then Tx(db, Err(Unauthorised))
    else if !RegistrationOk(r) then Tx(db, Err(BadRequest))
    else
      match FindLive(db.tokens, Sha256(token), now)
      case None => Tx(db, Err(Unauthorised))
      case Some(i) =>
        if |db.nodes| >= MAX_NODES || FindNode(db.nodes, r.agent).Some? || r.certificate in db.fingerprints then
          Tx(db, Err(Conflict))
        else
          var db1 := db.(tokens := db.tokens[i := db.tokens[i].(consumed := true)],
                         nodes := db.nodes + [NodeRow(r.agent, r.epoch, true, "", false, 0)],
                         fingerprints := db.fingerprints + {r.certificate});
          Committed(db, Note(db1, NodeEnrolled, r.agent, 1))
  }

  /** What RenewCertificate writes to the tables modelled here: the key of the new credential and an event. */
  function AddCredential(db: Db, fingerprint: string): Tx<()> {
    if fingerprint in db.fingerprints then Tx(db, Err(Conflict))
    else Committed(db, Note(db.(fingerprints := db.fingerprints + {fingerprint}), CertificateRenewed, "", 0))
  }

  /** SaveHeartbeat, for what task admission reads from it. */
  function Heartbeat(
      db: Db, agent: string, epoch: string, credential: bool, digest: string, ready: bool, nanos: int): Tx<()>
  {
    if !credential || !IsEnabled(db, agent, epoch) then Tx(db, Err(Unauthorised))
    else
      var i := FindNode(db.nodes, agent).value;
      if nanos - db.nodes[i].receivedAt < 5 * NANOS then Tx(db, Err(Limited))
      else Tx(db.(nodes := db.nodes[i := db.nodes[i].(policyDigest := digest, ready := ready, receivedAt := nanos)]),
          Ok(()))
  }

  /** The part of disableTx for an enabled node. */
  function DisableAt(db: Db, i: nat): Result<Db, Error>
    requires i < |db.nodes|
  {
    var node := db.nodes[i];
    match CloseTx(db.(nodes := db.nodes[i := node.(enabled := false)]), CancelNode(node.agent))
    case Err(x) => Err(x)
    case Ok(db1) => Note(db1, NodeDisabled, node.agent, -1)
  }

  function DisableTx(db: Db, agent: string): Result<Db, Error> {
    if !Hex(agent, 32) then Err(BadRequest)
    else
      match FindNode(db.nodes, agent)
      case None => Err(NoSuchNode)
      case Some(i) => if !db.nodes[i].enabled then Note(db, DisableUnchanged, agent, 0) else DisableAt(db, i)
  }

  // ---- Task dispatch ----

  /** dispatchSettings succeeds. */
  predicate SettingsOk(s: Settings) {
    s.trust.Some? ==> Valid(s.trust.value) && s.keyId.Some? && s.keyId.value in Ids(s.trust.value.keys)
  }

  /** ConfigureSigner. */
  function ConfigureSigner(db: Db, key: PublicKey): Tx<()> {
    if |key| != KEY_SIZE then Tx(db, Err(BadRequest))
    else if !SettingsOk(db.settings) then Tx(db, Err(BadSettings))
    else if db.settings.keyId == None then
      Committed(db, Note(db.(settings := db.settings.(keyId := Some(Sha256(key)))), SignerConfigured, "", 0))
    else if db.settings.keyId != Some(Sha256(key)) then Tx(db, Err(SignerMismatch))
    else Tx(db, Ok(()))
  }

  /** The arguments of enqueueTx; `request` is the random ID drawn for the task, `ttl` is in nanoseconds. */
  datatype Order = Order(
    request: string, agent: string, kind: TaskType, resource: string, actor: string, ttl: int, nanos: int)

  function NewTask(o: Order, node: NodeRow, now: int64): Task {
    Task(o.request, o.agent, node.epoch, now, Wrap64(now + o.ttl / NANOS), o.kind, o.resource, o.actor,
        node.policyDigest)
  }

  function QueuedRow(t: Task): TaskRow {
    TaskRow(t.request, t.agent, t.epoch, TaskText(t, ""), None, Queued, t.expiresAt, None, StillOpen)
  }

  function InsertTask(db: Db, t: Task): Result<Db, Error> {
    if FindTask(db.tasks, t.request).Some? then Err(Conflict)
    else Note(db.(tasks := db.tasks + [QueuedRow(t)]), TaskQueued, t.request, 2)
  }

  predicate RecentlyReady(node: NodeRow, nanos: int) {
    Hex(node.policyDigest, 64) && node.ready && node.receivedAt >= nanos - 300 * NANOS
  }

  /** enqueueTx. */
  function EnqueueTx(db: Db, o: Order, at: Times): Result<Db, Error> {
    var i := FindNode(db.nodes, o.agent);
    if !Hex(o.agent, 32) || o.ttl < NANOS || o.ttl > MAX_LIFETIME * NANOS then Err(BadRequest)
    else if i.None? || !db.nodes[i.value].enabled then Err(NodeNotEnabled)
    else if !RecentlyReady(db.nodes[i.value], o.nanos) then Err(NotReady)
    else if !SettingsOk(db.settings) || db.settings.keyId.None? then Err(NotConfigured)
    else if db.settings.paused then Err(DispatchPaused)
    else
      match CloseTx(db, ExpireQueued(o.agent, at.first))
      case Err(x) => Err(x)
      case Ok(db1) =>
        var t := NewTask(o, db.nodes[i.value], at.second);
        if |db1.tasks| >= MAX_STORED_TASKS || Sum(db1.tasks, PendingOf(o.agent)) >= MAX_PENDING then Err(QueueFull)
        else if !ValidTask(t) then Err(InvalidTask)
        else if db.settings.trust.Some?
          && !CheckTask(db.settings.trust.value, t, db.settings.keyId.value, at.third) then Err(OutsideKeyWindow)
        else InsertTask(db1, t)
  }

  predicate Deliverable(r: TaskRow, agent: string, epoch: string, now: int64) {
    r.agent == agent && r.epoch == epoch && !r.state.Terminal? && r.expiresAt > now
  }

  /** The first unresolved, unexpired task of a node, in order of sequence numbers. */
  function Next(tasks: seq<TaskRow>, agent: string, epoch: string, now: int64): (r: Option<nat>)
    ensures r.Some? ==> r.value < |tasks| && Deliverable(tasks[r.value], agent, epoch, now)
    ensures r.Some? ==> forall j :: 0 <= j < r.value ==> !Deliverable(tasks[j], agent, epoch, now)
    ensures r.None? ==> forall j :: 0 <= j < |tasks| ==> !Deliverable(tasks[j], agent, epoch, now)
  {
    if tasks == [] then None
    else
      var n := |tasks| - 1;
      match Next(tasks[..n], agent, epoch, now)
      case Some(i) => Some(i)
      case None => if Deliverable(tasks[n], agent, epoch, now) then Some(n) else None
  }

  function SignTask(s: Settings, payload: Payload, key: PublicKey, now: int64): Option<Envelope> {
    match s.trust
    case None => Sign(payload, key)
    case Some(trust) => SignTrusted(payload, key, trust, now)
  }

  /** A stored envelope verifies under the current settings and covers exactly this payload. */
  predicate EnvelopeVerifies(s: Settings, e: Envelope, payload: Payload, key: PublicKey, now: int64) {
    match s.trust
    case None => VerifyPayload(e, key).Some? && e.payload == payload
    case Some(trust) => VerifyTrusted(e, trust, now).Some? && VerifyTrusted(e, trust, now).value.payload == payload
  }

  /** The first dispatch of a queued task. */
  function DispatchAt(db: Db, i: nat, e: Envelope): Result<Db, Error>
    requires i < |db.tasks|
  {
    Note(db.(tasks := db.tasks[i := db.tasks[i].(state := Dispatched, envelope := Some(e))]), TaskDispatched,
        db.tasks[i].request, -1)
  }

  /** Deliver the task at position i: sign it on first delivery, recheck the stored envelope later on. */
  function Deliver(db: Db, i: nat, key: PublicKey, now: int64): Result<(Db, Envelope), Error>
    requires i < |db.tasks|
  {
    var row := db.tasks[i];
    if DecodeTask(row.payload).None? || row.payload.task.agent != row.agent
       || row.payload.task.epoch != row.epoch then Err(CorruptTask)
    else if row.state.Queued? then
      match SignTask(db.settings, row.payload, key, now)
      case None => Err(CannotSign)
      case Some(e) =>
        (match DispatchAt(db, i, e)
         case Err(x) => Err(x)
         case Ok(db') => Ok((db', e)))
    else if row.envelope.None? || !EnvelopeVerifies(db.settings, row.envelope.value, row.payload, key, now) then
      Err(BadSignature)
    else Ok((db, row.envelope.value))
  }

  /** Poll; `credential` says that the caller's certificate is authorised for the node. */
  function Poll(
      db: Db, agent: string, epoch: string, credential: bool, digest: string, key: PublicKey,
      at: Times): Tx<Option<Envelope>>
  {
    if |key| != KEY_SIZE || !Hex(digest, 64) then Tx(db, Err(BadRequest))
    else if !credential || !IsEnabled(db, agent, epoch) then Tx(db, Err(Unauthorised))
    else if !SettingsOk(db.settings) || db.settings.keyId != Some(Sha256(key)) then Tx(db, Err(SignerMismatch))
    else if db.settings.paused then Tx(db, Ok(None))
    else
      match CloseTx(db, ExpireQueued(agent, at.first))
      case Err(x) => Tx(db, Err(x))
      case Ok(db1) =>
        match Next(db1.tasks, agent, epoch, at.second)
        case None => Tx(db1, Ok(None))
        case Some(i) =>
          match Deliver(db1, i, key, at.third)
          case Err(x) => Tx(db, Err(x))
          case Ok((db2, e)) => Tx(db2, Ok(Some(e)))
  }

  datatype Ack = Ack(agent: string, epoch: string, request: string, digest: Sha256<ResultText>)

  /** What SubmitResult requires of a result for the row it found. */
  function ResultError(row: TaskRow, r: TaskResult): Option<Error> {
    match DecodeTask(row.payload)
    case None => Some(TypeMismatch)
    case Some(t) =>
      if !CheckAssignment(r, t) then Some(TypeMismatch)
      else if !r.status.Rejected? && !r.status.Expired? && r.policyDigest != t.policyDigest then Some(WrongPolicy)
      else None
  }

  function ReportAt(db: Db, i: nat, data: ResultText, r: TaskResult): Result<Db, Error>
    requires i < |db.tasks|
  {
    Note(db.(tasks :=
        db.tasks[i := db.tasks[i].(state := Terminal(r.status), result := Some(data), closing := Reported(r.code))]),
         ResultReceived, r.request, -1)
  }

  /** SubmitResult. */
  function SubmitResult(db: Db, agent: string, epoch: string, credential: bool, data: ResultText): Tx<Ack> {
    if TextSize(data) > MAX_DISPATCH_RESULT_BYTES then Tx(db, Err(TooLarge))
    else
      match DecodeResult(data)
      case None => Tx(db, Err(BadRequest))
      case Some(r) =>
        if !credential || !IsEnabled(db, agent, epoch) then Tx(db, Err(Unauthorised))
        else if r.agent != agent || r.epoch != epoch then Tx(db, Err(IdentityMismatch))
        else
          var i := FindTask(db.tasks, r.request);
          if i.None? || db.tasks[i.value].agent != agent || db.tasks[i.value].epoch != epoch then
            Tx(db, Err(NoAssignment))
          else
            var row := db.tasks[i.value];
            var ack := Ack(agent, epoch, r.request, Sha256(data));
            match ResultError(row, r)
            case Some(x) => Tx(db, Err(x))
            case None =>
              if row.result.Some? then
                if Sha256(row.result.value) != Sha256(data) then Tx(db, Err(Overwrite)) else Tx(db, Ok(ack))
              else if !row.state.Dispatched? then Tx(db, Err(NotDispatched))
              else
                match ReportAt(db, i.value, data, r)
                case Err(x) => Tx(db, Err(x))
                case Ok(db') => Tx(db', Ok(ack))
  }

  // ---- Signer rotation ----

  /** PauseDispatch. */
  function PauseDispatch(db: Db, paused: bool, now: int64): Tx<()> {
    var s := db.settings;
    if !SettingsOk(s) then Tx(db, Err(BadSettings))
    else if s.paused == paused then Tx(db, Ok(()))
    else if !paused && s.trust.Some? && !InWindow(s.trust.value, s.keyId, now) then Tx(db, Err(OutsideKeyWindow))
    else Committed(db, Note(db.(settings := s.(paused := paused)), DispatchChanged, "", 0))
  }

  predicate InWindow(trust: TrustSet, id: Option<KeyId>, now: int64) {
    id.Some? && match Key(trust.keys, id.value) case None => false case Some(k) => k.notBefore <= now < k.notAfter
  }

  /** What an operator names as the trust to replace: the raw key ID, or the current document. */
  datatype Baseline = KeyBaseline(id: Option<KeyId>) | SetBaseline(trust: TrustSet)

  predicate MatchesBaseline(s: Settings, expected: Baseline) {
    match s.trust
    case None => expected == KeyBaseline(s.keyId)
    case Some(p) => expected.SetBaseline? && SameTrust(expected.trust, p)
  }

  predicate IsLive(r: TaskRow, now: int64) {
    r.state.Dispatched? && r.expiresAt > now
  }

  /** One row of the loop in InstallSignerTrust. */
  predicate LiveVerifies(r: TaskRow, next: TrustSet, now: int64) {
    r.envelope.Some? && VerifyTrusted(r.envelope.value, next, now).Some?
      && VerifyTrusted(r.envelope.value, next, now).value.payload == r.payload
  }

  predicate AllLiveVerify(tasks: seq<TaskRow>, next: TrustSet, at: Times) {
    forall i :: 0 <= i < |tasks| && IsLive(tasks[i], at.first) ==> LiveVerifies(tasks[i], next, RowTime(at, i))
  }

  /** InstallSignerTrust. */
  function InstallTrust(db: Db, expected: Baseline, next: TrustSet, at: Times): Tx<()> {
    var s := db.settings;
    if !Valid(next) then Tx(db, Err(BadRequest))
    else if !SettingsOk(s) then Tx(db, Err(BadSettings))
    else if !s.paused then Tx(db, Err(NotPaused))
    else if !Sound(db.ledger) then Tx(db, Err(AuditCorrupt))
    else if s.trust.Some? && SameTrust(s.trust.value, next) then Tx(db, Ok(()))
    else if !MatchesBaseline(s, expected) then Tx(db, Err(StaleBaseline))
    else if s.keyId.None? || !Accepted(s.trust, s.keyId.value, next) then Tx(db, Err(RejectedTransition))
    else if s.keyId.value !in Ids(next.keys) then Tx(db, Err(SelectedSignerRetired))
    else if !AllLiveVerify(db.tasks, next, at) then Tx(db, Err(LiveEnvelopes))
    else Committed(db, Note(db.(settings := s.(trust := Some(next))), TrustChanged, "", 0))
  }

  predicate NoneQueued(tasks: seq<TaskRow>) {
    forall i :: 0 <= i < |tasks| ==> !tasks[i].state.Queued?
  }

  /** SwitchSigner. */
  function SwitchSigner(db: Db, id: KeyId, now: int64): Tx<()> {
    var s := db.settings;
    if !SettingsOk(s) then Tx(db, Err(BadSettings))
    else if !s.paused || s.trust.None? then Tx(db, Err(NotPaused))
    else if !InWindow(s.trust.value, Some(id), now) then Tx(db, Err(OutsideKeyWindow))
    else if s.keyId == Some(id) then Tx(db, Ok(()))
    else if !NoneQueued(db.tasks) then Tx(db, Err(QueuedTasks))
    else Committed(db, Note(db.(settings := s.(keyId := Some(id))), SignerSelected, "", 0))
  }

  /** CancelQueuedForSignerChange. */
  function CancelQueuedTasks(db: Db): Tx<()> {
    if !SettingsOk(db.settings) then Tx(db, Err(BadSettings))
    else if !db.settings.paused then Tx(db, Err(NotPaused))
    else Committed(db, CloseTx(db, CancelQueued))
  }

  // ---- Accounts and sessions ----

  function CreateUser(db: Db, user: UserRow): Tx<()> {
    if |db.users| >= MAX_USERS || (db.users == [] && user.role != Admin) then Tx(db, Err(Conflict))
    else if FindUser(db.users, user.id).Some? || FindName(db.users, user.name).Some? then Tx(db, Err(Conflict))
    else Committed(db,
        Note(db.(users := db.users + [user.(enabled := true, generation := 1)]), UserCreated, user.id, 0))
  }

  datatype Change = NewPassword(hash: string) | NewRole(role: Role) | DisableAccount | RevokeAccount

  function Changed(u: UserRow, c: Change): UserRow {
    var next := u.(generation := u.generation + 1);
    match c
    case NewPassword(hash) => next.(password := hash)
    case NewRole(role) => next.(role := role)
    case DisableAccount => next.(enabled := false)
    case RevokeAccount => next
  }

  /** ChangeUser: one event records the change and gives back the slots of all the user's sessions. */
  function ChangeUser(db: Db, name: string, c: Change): Tx<()> {
    match FindName(db.users, name)
    case None => Tx(db, Err(NoSuchUser))
    case Some(i) =>
      var u := db.users[i];
      if !u.enabled && !c.RevokeAccount? then Tx(db, Err(Forbidden))
      else
        var rest := Remaining(db.sessions, UserRevoked(u.id));
        Committed(db, Note(db.(sessions := rest, users := db.users[i := Changed(u, c)]), UserChanged, u.id,
            |rest| - |db.sessions|))
  }

  function Bumped(users: seq<UserRow>): (r: seq<UserRow>)
    ensures |r| == |users| && forall i :: 0 <= i < |r| ==> r[i] == users[i].(generation := users[i].generation + 1)
  {
    if users == [] then []
    else
      var u := users[|users| - 1];
      Bumped(users[..|users| - 1]) + [u.(generation := u.generation + 1)]
  }

  function DropAll(db: Db, kind: Kind): Result<Db, Error> {
    Note(db.(sessions := [], users := Bumped(db.users)), kind, "", -|db.sessions|)
  }

  /** RevokeAllSessions. */
  function RevokeAllSessions(db: Db): Tx<()> {
    Committed(db, DropAll(db, AllSessionsRevoked))
  }

  /** The enabled node with the least ID. */
  function FirstEnabled(nodes: seq<NodeRow>): (r: Option<nat>)
    ensures r.Some? ==> r.value < |nodes| && nodes[r.value].enabled
    ensures r.None? ==> forall i :: 0 <= i < |nodes| ==> !nodes[i].enabled
  {
    if nodes == [] then None
    else
      var n := |nodes| - 1;
      match FirstEnabled(nodes[..n])
      case None => if nodes[n].enabled then Some(n) else None
      case Some(i) => if nodes[n].enabled && TextBefore(nodes[n].agent, nodes[i].agent) then Some(n) else Some(i)
  }

  /** The loop of QuarantineRestore, in order of node IDs, for at most n nodes. */
  function DisableAll(db: Db, n: nat): Result<Db, Error>
    decreases n
  {
    if n == 0 then Ok(db)
    else
      match FirstEnabled(db.nodes)
      case None => Ok(db)
      case Some(i) =>
        match DisableAt(db, i)
        case Err(x) => Err(x)
        case Ok(db1) => DisableAll(db1, n - 1)
  }

  /** QuarantineRestore. */
  function QuarantineRestore(db: Db): Tx<()> {
    match DisableAll(db, |db.nodes|)
    case Err(x) => Tx(db, Err(x))
    case Ok(db1) => Committed(db, DropAll(db1.(tokens := Consumed(db1.tokens)), RestoreQuarantined))
  }

  /** adminClock. */
  function AdminClock(db: Db, now: int64): Result<Db, Error> {
    if now < 1 || now < db.adminHigh - MAX_CLOCK_SKEW then Err(Unavailable)
    else Ok(db.(adminHigh := Max(db.adminHigh, now)))
  }

  /** The outcome of the login rate limiter. */
  datatype Budget = Within | FirstBlock | StillBlocked | NoBucket

  /** What the first transaction of Login hands to the second: the account as it was read, if known. */
  type Attempt = Option<UserRow>

  /** First transaction of Login. */
  function StartLogin(db: Db, name: string, budget: Budget, now: int64): Tx<Attempt> {
    match AdminClock(db, now)
    case Err(x) => Tx(db, Err(x))
    case Ok(db1) =>
      match budget
      case NoBucket => Tx(db, Err(Limited))
      case StillBlocked => Tx(db1, Err(Limited))
      case FirstBlock =>
        (match Note(db1, LoginLimited, "", 0)
         case Err(x) => Tx(db, Err(x))
         case Ok(db2) => Tx(db2, Err(Limited)))
      case Within =>
        (match Note(db1, LoginAttempted, "", 0)
         case Err(x) => Tx(db, Err(x))
         case Ok(db2) =>
           Tx(db2, Ok(match FindName(db.users, name) case None => None case Some(i) => Some(db.users[i]))))
  }

  /** The account still has exactly the authority that was read before the password check. */
  predicate StillCurrent(users: seq<UserRow>, u: UserRow) {
    var i := FindUser(users, u.id);
    && i.Some? && users[i.value].enabled && users[i.value].generation == u.generation
    && users[i.value].password == u.password && users[i.value].role == u.role
  }

  predicate FreshSession(db: Db, id: string, token: Sha256<string>) {
    forall i :: 0 <= i < |db.sessions| ==> db.sessions[i].id != id && db.sessions[i].token != token
  }

  /** Commit a failed login with its audit event. */
  function Refuse(db: Db, db1: Db, kind: Kind, subject: string, error: Error): Tx<string> {
    match Note(db1, kind, subject, 0)
    case Err(x) => Tx(db, Err(x))
    case Ok(db2) => Tx(db2, Err(error))
  }

  /** Second transaction of Login; `matched` is the outcome of the password check. */
  function FinishLogin(db: Db, attempt: Attempt, matched: bool, id: string, token: string, now: int64): Tx<string> {
    match AdminClock(db, now)
    case Err(x) => Tx(db, Err(x))
    case Ok(db1) =>
      if !matched || attempt.None? || !attempt.value.enabled || !StillCurrent(db.users, attempt.value) then
        Refuse(db, db1, LoginFailed, "", Unauthorised)
      else
        var u := attempt.value;
        match EndTx(db1, Stale(now))
        case Err(x) => Tx(db, Err(x))
        case Ok(db2) =>
          if |db2.sessions| >= MAX_SESSIONS || Sum(db2.sessions, OwnedBy(u.id)) >= MAX_OWNED then
            Refuse(db, db2, LoginFailed, u.id, Limited)
          else if !FreshSession(db2, id, Sha256(token)) then Tx(db, Err(Conflict))
          else
            var s := SessionRow(id, Sha256(token), u.id, now, now, Wrap64(now + SESSION_LIFETIME));
            match Note(db2.(sessions := db2.sessions + [s]), LoginSucceeded, u.id, 1)
            case Err(x) => Tx(db, Err(x))
            case Ok(db3) => Tx(db3, Ok(token))
  }

  // ---- Remote administration ----

  datatype Operation =
    | Read(found: bool)
    | IssueToken(token: string, ttl: int, nanos: int)
    | Submit(order: Order)
    | DisableNode(agent: string)
    | Logout
    | RevokeOwn

  predicate Privileged(op: Operation) {
    op.Submit? || op.IssueToken? || op.DisableNode?
  }

  /** authorizeAdminTx: the position of a live session of an enabled account. */
  function Authorize(db: Db, token: string, now: int64): (r: Option<nat>)
    ensures r.Some? ==> r.value < |db.sessions| && FindUser(db.users, db.sessions[r.value].user).Some?
  {
    match FindToken(db.sessions, Sha256(token))
    case None => None
    case Some(i) =>
      var s := db.sessions[i];
      var u := FindUser(db.users, s.user);
      if Hex(token, 64) && u.Some? && db.users[u.value].enabled && s.expiresAt > now
         && s.lastUsed > now - SESSION_IDLE && s.createdAt <= now + 30
      then Some(i) else None
  }

  /** The operation between the savepoint and the commit. */
  function Perform(db: Db, s: SessionRow, op: Operation, at: Times): Result<Db, Error> {
    match op
    case Read(found) =>
      (match Note(db, RecordsRead, s.user, 0)
       case Err(x) => Err(x)
       case Ok(db') => if found then Ok(db') else Err(NotFound))
    case IssueToken(token, ttl, nanos) => IssueTokenTx(db, token, ttl, nanos, s.user)
    case Submit(o) => EnqueueTx(db, o.(actor := s.user), at)
    case DisableNode(agent) => DisableTx(db, agent)
    case Logout => EndTx(db, LoggedOut(s.id))
    case RevokeOwn =>
      match EndTx(db, UserRevoked(s.user))
      case Err(x) => Err(x)
      case Ok(db1) =>
        match FindUser(db1.users, s.user)
        case None => Ok(db1)
        case Some(i) => Ok(db1.(users := db1.users[i := Changed(db1.users[i], RevokeAccount)]))
  }

  function Touch(db: Db, token: string, now: int64): Db {
    match FindToken(db.sessions, Sha256(token))
    case None => db
    case Some(i) => db.(sessions := db.sessions[i := db.sessions[i].(lastUsed := Max(db.sessions[i].lastUsed, now))])
  }

  /** Manage: a failed operation is rolled back to the savepoint and its rejection is recorded, except
      that a full audit log rolls the whole transaction back. */
  function Manage(db: Db, token: string, op: Operation, at: Times): Tx<()> {
    var now := at.first;
    match AdminClock(db, now)
    case Err(x) => Tx(db, Err(x))
    case Ok(db0) =>
      match EndTx(db0, Stale(now))
      case Err(x) => Tx(db, Err(x))
      case Ok(db1) =>
        match Authorize(db1, token, now)
        case None => Tx(db1, Err(Unauthorised))
        case Some(i) =>
          var s := db1.sessions[i];
          if Privileged(op) && db1.users[FindUser(db1.users, s.user).value].role != Admin then
            (match Note(db1, AdminDenied, s.user, 0)
             case Err(x) => Tx(db, Err(x))
             case Ok(db2) => Tx(db2, Err(Forbidden)))
          else
            match Perform(db1, s, op, at)
            case Ok(db2) => Tx(Touch(db2, token, now), Ok(()))
            case Err(x) =>
              if x == AuditFailed(AuditFull) then Tx(db, Err(x))
              else
                match Note(db1, AdminRejected, s.user, 0)
                case Err(y) => Tx(db, Err(y))
                case Ok(db2) => Tx(db2, Err(if x == NotFound then NotFound else Conflict))
  }
}
