/** The probe's durable replay state and its transactions (internal/probe/state.go, internal/probe/trust.go).
    Each function maps the committed state before a transaction to the committed state after it;
    a transaction that rolls back returns its input state. */
module ProbeState {
  import opened Core
  import opened Tables
  import opened Protocol
  import opened Ledgers
  import opened Trust

  const MAX_RECORDS := 8192
  const RETENTION := 86400
  const MINUTE_MS := 60000
  const SECOND_MS := 1000

  datatype Node = Node(agent: string, epoch: string)

  /** A locally administered policy; `digest` stands for Policy.Digest. */
  datatype Policy = Policy(
    digest: string, paused: bool, kinds: set<TaskType>, sshProfiles: set<string>, services: set<string>,
    maxPerMinute: int, burst: int, maxResultBytes: int, pendingBytes: int)

  predicate ValidPolicy(p: Policy) {
    && Hex(p.digest, 64) && 1 <= p.maxPerMinute <= 30 && 1 <= p.burst <= 5 && p.burst <= p.maxPerMinute
    && 1024 <= p.maxResultBytes <= 16384 && p.maxResultBytes <= p.pendingBytes <= 32 * 1024 * 1024
  }

  predicate Allows(p: Policy, k: TaskType) {
    !p.paused && k in p.kinds
  }

  predicate AllowsResource(p: Policy, t: Task) {
    match t.kind
    case SshAudit => ResourceId(t.resource) && t.resource in p.sshProfiles
    case ServiceStatus => ResourceId(t.resource) && t.resource in p.services
    case _ => true
  }

  datatype Kind =
    | StateInitialized | TaskAccepted | TaskRejected | TaskCompleted | TaskRecovered | TaskConflict
    | InvalidTask | PolicyChanged | ClockRollback | TrustChanged

  datatype Event = Event(kind: Kind, request: string, code: Code,
                         payload: Option<Sha256<Payload>>, result: Option<Sha256<ResultText>>)

  function LocalEvent(kind: Kind): Event {
    Event(kind, "", NoCode, None, None)
  }

  /** One row of the executions table; the epoch column always holds the node's own epoch. */
  datatype Row = Row(
    request: string, payload: Payload, payloadDigest: Sha256<Payload>, policyDigest: string, state: Status,
    startedAt: int64, acceptedMs: int64, executed: bool, expiresAt: int64,
    result: Option<ResultText>, resultDigest: Option<Sha256<ResultText>>, delivered: bool)

  /** What verifies tasks: the key pinned at initialisation, or an installed trust set. */
  datatype Binding = Pinned(key: PublicKey) | Installed(trust: TrustSet)

  datatype State = State(
    node: Node, binding: Binding, clockHigh: int64, clockBlocked: bool, policyDigest: string,
    rows: seq<Row>, audit: Ledger<Event>)

  datatype Error =
    | ClockBlocked | InvalidClock | Busy | Conflict | CapacityExhausted | AuditFailed(cause: AuditError)
    | WrongIdentity | OutsideKeyWindow | CorruptCache | BadPolicy | NoActiveKey | TrustMismatch | AuditCorrupt
    | InconsistentReservations | CorruptExecution | InvalidOutcome | NotRunning | AckMismatch | RejectedTransition
    | CorruptRecords | BadStamp

  /** The committed state and the value or error handed to the caller. */
  datatype Tx<+T> = Tx(state: State, result: Result<T, Error>)

  function Seconds(ms: int64): int64 {
    ms / 1000
  }

  // ---- Table queries ----

  function RunningWeight(): Row -> nat {
    (r: Row) => if r.state.Running? then 1 else 0
  }

  /** COUNT of admitted executions accepted strictly after a time. */
  function ExecutedAfter(ms: int): Row -> nat {
    (r: Row) => if r.executed && r.acceptedMs > ms then 1 else 0
  }

  /** LENGTH(result) of undelivered rows. */
  function PendingWeight(): Row -> nat {
    (r: Row) => if !r.delivered && r.result.Some? then TextSize(r.result.value) else 0
  }

  function Find(rows: seq<Row>, id: string): (r: Option<nat>)
    ensures r.Some? ==> r.value < |rows| && rows[r.value].request == id
    ensures r.None? ==> forall i :: 0 <= i < |rows| ==> rows[i].request != id
  {
    if rows == [] then None
    else if rows[|rows| - 1].request == id then Some(|rows| - 1)
    else Find(rows[..|rows| - 1], id)
  }

  function FindRunning(rows: seq<Row>): (r: Option<nat>)
    ensures r.Some? ==> r.value < |rows| && rows[r.value].state.Running?
    ensures r.None? ==> forall i :: 0 <= i < |rows| ==> !rows[i].state.Running?
  {
    if rows == [] then None
    else if rows[|rows| - 1].state.Running? then Some(|rows| - 1)
    else FindRunning(rows[..|rows| - 1])
  }

  predicate Expendable(r: Row, now: int64) {
    r.delivered && !r.state.Running? && !r.state.Indeterminate? && r.expiresAt < now - RETENTION
  }

  function Prune(rows: seq<Row>, now: int64): (kept: seq<Row>)
    ensures forall r :: r in kept <==> r in rows && !Expendable(r, now)
  {
    if rows == [] then []
    else
      var rest := Prune(rows[..|rows| - 1], now);
      if Expendable(rows[|rows| - 1], now) then rest else rest + [rows[|rows| - 1]]
  }

  // ---- Audit with the unique decision index ----

  predicate IsDecision(e: Event) {
    e.kind.TaskAccepted? || e.kind.TaskRejected?
  }

  predicate Decides(e: Event, id: string) {
    IsDecision(e) && e.request == id
  }

  predicate Decided(l: Ledger<Event>, id: string) {
    exists i :: 0 <= i < |l.events| && Decides(l.events[i], id)
  }

  function Record(l: Ledger<Event>, e: Event, delta: int): (r: Result<Ledger<Event>, Error>)
    ensures r.Ok? && Sound(l) ==> Sound(r.value)
  {
    match Append(l, e, delta)
    case Err(x) => Err(AuditFailed(x))
    case Ok(l') =>
      if Decides(e, e.request) && Decided(l, e.request) then Err(AuditFailed(DuplicateDecision)) else Ok(l')
  }

  // ---- Parts of transactions ----

  datatype ClockCheck = ClockRuns(state: State) | ClockStops(state: State) | ClockInvalid

  /** State.clock: a step back of more than 30 seconds latches, even when the audit log is full. */
  function Clock(s: State, now: int64): ClockCheck {
    if s.clockHigh <= 0 || now <= 0 then ClockInvalid
    else if s.clockBlocked then ClockStops(s)
    else if now < s.clockHigh - MAX_CLOCK_SKEW then
      var latched := s.(clockBlocked := true);
      match Append(s.audit, LocalEvent(ClockRollback), 0)
      case Ok(l) => ClockStops(latched.(audit := l))
      case Err(_) => ClockStops(latched)
    else if now > s.clockHigh then ClockRuns(s.(clockHigh := now))
    else ClockRuns(s)
  }

  /** State.policy. */
  function UsePolicy(s: State, digest: string): Result<State, Error> {
    if s.policyDigest == digest then Ok(s)
    else
      match Append(s.audit, LocalEvent(PolicyChanged), 0)
      case Err(x) => Err(AuditFailed(x))
      case Ok(l) => Ok(s.(audit := l, policyDigest := digest))
  }

  /** capacity: prune, then require room for one row, one full result and two audit events. */
  function Capacity(s: State, p: Policy, now: int64): Result<State, Error> {
    var rows := Prune(s.rows, now);
    if |rows| >= MAX_RECORDS || Sum(rows, PendingWeight()) + p.maxResultBytes > p.pendingBytes then
      Err(CapacityExhausted)
    else if |s.audit.events| + s.audit.reserved + 2 > CAPACITY then Err(AuditFailed(AuditFull))
    else Ok(s.(rows := rows))
  }

  /** emptyResult. */
  function EmptyResult(t: Task, digest: string, start: int64, end: int64, status: Status, code: Code): TaskResult {
    TaskResult(t.request, t.agent, t.epoch, t.kind, start, end, status, EmptyObject, code, digest)
  }

  /** The checks of prepare, in order; Running means the task may execute. */
  function Judge(t: Task, p: Policy, now: int64, minute: nat, burst: nat): (Status, Code) {
    if now >= t.expiresAt then (Expired, ExpiredCode)
    else if now < t.createdAt - MAX_CLOCK_SKEW then (Rejected, Future)
    else if t.policyDigest != p.digest then (Rejected, PolicyMismatch)
    else if p.paused then (Rejected, Paused)
    else if !Allows(p, t.kind) then (Rejected, TaskDisabled)
    else if !AllowsResource(p, t) then (Rejected, ResourceDenied)
    else if minute >= p.maxPerMinute || burst >= p.burst then (Rejected, RateLimited)
    else (Running, NoCode)
  }

  datatype Decision = Run(digest: string, startedAt: int64) | Answer(text: ResultText)

  /** The row and event that record a judgement. */
  function JudgedRow(t: Task, payload: Payload, p: Policy, nowMs: int64, status: Status, code: Code): Row {
    var now := Seconds(nowMs);
    var text := Marshal(EmptyResult(t, p.digest, now, now, status, code));
    Row(t.request, payload, Sha256(payload), p.digest, status, now, nowMs, status.Running?, t.expiresAt,
        if status.Running? then None else Some(text),
        if status.Running? then None else Some(Sha256(text)), false)
  }

  function JudgedEvent(row: Row, code: Code): Event {
    var kind := if row.state.Running? then TaskAccepted else TaskRejected;
    Event(kind, row.request, code, Some(row.payloadDigest), row.resultDigest)
  }

  /** The part of prepare that runs when the request has no row yet. */
  function Admit(s: State, t: Task, payload: Payload, p: Policy, nowMs: int64): Result<(State, Decision), Error> {
    var now := Seconds(nowMs);
    match UsePolicy(s, p.digest)
    case Err(x) => Err(x)
    case Ok(s1) =>
      match Capacity(s1, p, now)
      case Err(x) => Err(x)
      case Ok(s2) =>
        if FindRunning(s2.rows).Some? then Err(Busy)
        else
          var (status, code) :=
            Judge(t, p, now, Sum(s2.rows, ExecutedAfter(nowMs - MINUTE_MS)),
                Sum(s2.rows, ExecutedAfter(nowMs - SECOND_MS)));
          var row := JudgedRow(t, payload, p, nowMs, status, code);
          match Record(s2.audit, JudgedEvent(row, code), if status.Running? then 1 else 0)
          case Err(x) => Err(x)
          case Ok(l) =>
            Ok((s2.(rows := s2.rows + [row], audit := l),
                if status.Running? then Run(p.digest, now) else Answer(row.result.value)))
  }

  /** The part of prepare that answers from an existing row. */
  function Replay(s: State, t: Task, payload: Payload, row: Row): Tx<Decision> {
    if row.payloadDigest != Sha256(payload) then
      match Append(s.audit, Event(TaskConflict, t.request, NoCode, Some(Sha256(payload)), None), 0)
      case Err(x) => Tx(s, Err(AuditFailed(x)))
      case Ok(l) => Tx(s.(audit := l), Err(Conflict))
    else if row.result.None? then Tx(s, Err(Busy))
    else
      var text := row.result.value;
      match DecodeResult(text)
      case Some(r) =>
        if row.resultDigest != Some(Sha256(text)) || r.request != t.request || r.agent != t.agent
           || r.epoch != t.epoch || r.kind != t.kind
        then Tx(s, Err(CorruptCache)) else Tx(s, Ok(Answer(text)))
      case None => Tx(s, Err(CorruptCache))
  }

  // ---- Transactions ----

  /** State.prepare. `verifier` is what the worker was opened with, `keyId` the key that verified the
      envelope, and `checkedAt` the second clock reading taken for the key window. */
  function Prepare(
      s: State, verifier: Binding, t: Task, payload: Payload, p: Policy, nowMs: int64, keyId: KeyId,
      checkedAt: int64): Tx<Decision>
  {
    if !ValidPolicy(p) then Tx(s, Err(BadPolicy))
    else if t.agent != s.node.agent || t.epoch != s.node.epoch then Tx(s, Err(WrongIdentity))
    else
      match Clock(s, Seconds(nowMs))
      case ClockInvalid => Tx(s, Err(InvalidClock))
      case ClockStops(s1) => Tx(s1, Err(ClockBlocked))
      case ClockRuns(s1) =>
        if verifier.Installed? && !CheckTask(verifier.trust, t, keyId, checkedAt) then Tx(s, Err(OutsideKeyWindow))
        else
          match Find(s1.rows, t.request)
          case Some(i) =>
            var r := Replay(s1, t, payload, s1.rows[i]);
            if r.result.Err? && r.result.error != Conflict then Tx(s, r.result) else r
          case None =>
            match Admit(s1, t, payload, p, nowMs)
            case Err(x) => Tx(s, Err(x))
            case Ok((s2, d)) => Tx(s2, Ok(d))
  }

  /** State.Ready. */
  function Ready(s: State, verifier: Binding, p: Policy, now: int64): Tx<()> {
    if verifier.Installed?
       && !(exists i ::
            0 <= i < |verifier.trust.keys| && verifier.trust.keys[i].notBefore <= now < verifier.trust.keys[i].notAfter)
    then Tx(s, Err(NoActiveKey))
    else if !ValidPolicy(p) then Tx(s, Err(BadPolicy))
    else
      match Clock(s, now)
      case ClockInvalid => Tx(s, Err(InvalidClock))
      case ClockStops(s1) => Tx(s1, Err(ClockBlocked))
      case ClockRuns(s1) =>
        match UsePolicy(s1, p.digest)
        case Err(x) => Tx(s, Err(x))
        case Ok(s2) =>
          match Capacity(s2, p, now)
          case Err(x) => Tx(s, Err(x))
          case Ok(s3) => if FindRunning(s3.rows).Some? then Tx(s, Err(Busy)) else Tx(s3, Ok(()))
  }

  function FinishedRow(row: Row, r: TaskResult): Row {
    row.(state := r.status, result := Some(Marshal(r)), resultDigest := Some(Sha256(Marshal(r))))
  }

  /** finishTx: complete the running row of a task and give back its reserved audit slot. */
  function FinishTx(s: State, t: Task, r: TaskResult, kind: Kind): Result<State, Error> {
    if !ValidResult(r) || !CheckAssignment(r, t) then Err(InvalidOutcome)
    else
      match Find(s.rows, t.request)
      case None => Err(NotRunning)
      case Some(i) =>
        if !s.rows[i].state.Running? then Err(NotRunning)
        else
          var e := Event(kind, t.request, r.code, Some(s.rows[i].payloadDigest), Some(Sha256(Marshal(r))));
          match Record(s.audit, e, -1)
          case Err(x) => Err(x)
          case Ok(l) => Ok(s.(rows := s.rows[i := FinishedRow(s.rows[i], r)], audit := l))
  }

  /** State.finish. */
  function Finish(s: State, t: Task, r: TaskResult): Tx<ResultText> {
    match FinishTx(s, t, r, TaskCompleted)
    case Err(x) => Tx(s, Err(x))
    case Ok(s1) => Tx(s1, Ok(Marshal(r)))
  }

  /** A transaction whose audit events are stamped with `stamp`, the host's clock in nanoseconds: an event with a time
      that is not positive is refused, and the transaction with it. */
  function Stamped<T>(s: State, tx: Tx<T>, stamp: int): Tx<T> {
    if stamp > 0 || tx.state.audit.events == s.audit.events then tx else Tx(s, Err(BadStamp))
  }

  /** checkTrustBinding; documents are compared in canonical form. */
  predicate Matches(stored: Binding, verifier: Binding) {
    match (stored, verifier)
    case (Pinned(a), Pinned(b)) => |b| == KEY_SIZE && a == b
    case (Installed(a), Installed(b)) => Valid(b) && SameTrust(a, b)
    case _ => false
  }

  /** The result recorded for an execution that a crash interrupted. */
  function InterruptedResult(t: Task, row: Row, now: int64): TaskResult {
    EmptyResult(t, row.policyDigest, row.startedAt, Max(row.startedAt, now), Indeterminate, RecoveredAfterRestart)
  }

  /** State.recover, run when a worker opens the store. */
  function Recover(s: State, node: Node, verifier: Binding, now: int64): Tx<()> {
    if node != s.node then Tx(s, Err(WrongIdentity))
    else if !Matches(s.binding, verifier) then Tx(s, Err(TrustMismatch))
    else if !Sound(s.audit) then Tx(s, Err(AuditCorrupt))
    else
      match Clock(s, now)
      case ClockInvalid => Tx(s, Err(InvalidClock))
      case ClockStops(s1) => Tx(s1, Err(ClockBlocked))
      case ClockRuns(s1) =>
        var running := Sum(s1.rows, RunningWeight());
        if s1.audit.reserved != running || running > 1 then Tx(s, Err(InconsistentReservations))
        else
          match FindRunning(s1.rows)
          case None => Tx(s1, Ok(()))
          case Some(i) =>
            var row := s1.rows[i];
            match DecodeTask(row.payload)
            case None => Tx(s, Err(CorruptExecution))
            case Some(t) =>
              if row.payloadDigest != Sha256(row.payload) then Tx(s, Err(CorruptExecution))
              else
                match FinishTx(s1, t, InterruptedResult(t, row, now), TaskRecovered)
                case Err(x) => Tx(s, Err(x))
                case Ok(s2) => Tx(s2, Ok(()))
  }

  /** State.rejectInvalid. */
  function RejectInvalid(s: State): Tx<()> {
    match Append(s.audit, LocalEvent(InvalidTask), 0)
    case Err(x) => Tx(s, Err(AuditFailed(x)))
    case Ok(l) => Tx(s.(audit := l), Ok(()))
  }

  /** State.Acknowledge. */
  function Acknowledge(s: State, request: string, digest: Sha256<ResultText>): Tx<()> {
    match Find(s.rows, request)
    case None => Tx(s, Err(AckMismatch))
    case Some(i) =>
      var row := s.rows[i];
      if row.state.Running? || row.resultDigest != Some(digest) then Tx(s, Err(AckMismatch))
      else Tx(s.(rows := s.rows[i := row.(delivered := true)]), Ok(()))
  }

  /** What verifyMigrationRecords requires of one row. */
  predicate RecordConsistent(node: Node, row: Row) {
    match (DecodeTask(row.payload), row.result)
    case (Some(t), Some(text)) =>
      (match DecodeResult(text)
       case Some(r) =>
         && t.agent == node.agent && t.epoch == node.epoch && t.request == row.request
         && row.payloadDigest == Sha256(row.payload) && Hex(row.policyDigest, 64)
         && CheckAssignment(r, t) && r.status == row.state && r.policyDigest == row.policyDigest
         && row.resultDigest == Some(Sha256(text))
       case None => false)
    case _ => false
  }

  /** verifyMigrationRecords. */
  predicate RecordsConsistent(s: State) {
    s.audit.reserved == 0 && |s.rows| <= MAX_RECORDS
      && forall i :: 0 <= i < |s.rows| ==> RecordConsistent(s.node, s.rows[i])
  }

  /** MigrateTrust; the worker must not hold the store. */
  function MigrateTrust(
      s: State, node: Node, legacy: PublicKey, previous: Option<TrustSet>, next: TrustSet, now: int64): Tx<()>
  {
    if previous.None? && |legacy| != KEY_SIZE then Tx(s, Err(RejectedTransition))
    else if !Accepted(previous, Sha256(legacy), next) then Tx(s, Err(RejectedTransition))
    else if node != s.node then Tx(s, Err(WrongIdentity))
    else if s.clockHigh <= 0 || s.clockBlocked || now < s.clockHigh - MAX_CLOCK_SKEW then Tx(s, Err(ClockBlocked))
    else if !Sound(s.audit) then Tx(s, Err(AuditCorrupt))
    else if !RecordsConsistent(s) then Tx(s, Err(CorruptRecords))
    else if s.binding.Installed? && SameTrust(s.binding.trust, next) then Tx(s, Ok(()))
    else if !Matches(s.binding, if previous.None? then Pinned(legacy) else Installed(previous.value)) then
      Tx(s, Err(TrustMismatch))
    else
      match Append(s.audit, LocalEvent(TrustChanged), 0)
      case Err(x) => Tx(s, Err(AuditFailed(x)))
      case Ok(l) => Tx(s.(binding := Installed(next), audit := l), Ok(()))
  }

  /** Initialize and InitializeWithTrust: an empty store bound to a node and a verifier. */
  function Initialize(node: Node, binding: Binding, now: int64): State {
    State(node, binding, now, false, "", [], Ledger([LocalEvent(StateInitialized)], 0))
  }

  // ---- engine.go: from a collector's outcome to the recorded result ----

  datatype Outcome = Collected(data: Data) | CollectorError | TimedOut

  /** The result Process records: `expired` when the task ran out before the collector started. */
  function Normalise(
      t: Task, digest: string, startedAt: int64, expired: bool, outcome: Outcome, finishedAt: int64,
      p: Policy): TaskResult
  {
    var base := EmptyResult(t, digest, startedAt, Max(startedAt, finishedAt), Failed, CollectorFailed);
    var raw :=
      if expired then base.(status := Expired, code := ExpiredCode)
      else
        match outcome
        case Collected(data) => base.(status := Succeeded, code := NoCode, data := data)
        case CollectorError => base
        case TimedOut => base.(code := Deadline);
    var checked := if ValidResult(raw) && CheckAssignment(raw, t) then raw
                   else raw.(status := Failed, code := CollectorFailed, data := EmptyObject);
    if EncodedSize(checked) > p.maxResultBytes then checked.(status := Failed, code := ResultLimit, data := EmptyObject)
    else checked
  }
}
