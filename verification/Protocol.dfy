/** Tasks, results and their encodings (internal/protocol). */
module Protocol {
  import opened Core

  const MAX_LIFETIME := 300
  const MAX_DISPATCH_RESULT_BYTES := 32768

  datatype TaskType = SystemInfo | SystemMetrics | SshAudit | ServiceStatus

  /** `resource` is the profile or service ID in the parameters of the two resource task types. */
  datatype Task = Task(
    request: string, agent: string, epoch: string, createdAt: int64, expiresAt: int64,
    kind: TaskType, resource: string, actor: string, policyDigest: string)

  predicate IdentifierChar(c: char) {
    'a' <= c <= 'z' || 'A' <= c <= 'Z' || '0' <= c <= '9' || c == '_' || c == '-'
  }

  predicate Identifier(s: string) {
    1 <= |s| <= 64 && forall i :: 0 <= i < |s| ==> IdentifierChar(s[i])
  }

  predicate ResourceId(s: string) {
    1 <= |s| <= 32 && s[0] != '_' && s[0] != '-' && Identifier(s)
  }

  /** Task.Validate; the version fields are fixed at 1 and not represented. */
  predicate ValidTask(t: Task) {
    && Hex(t.request, 32) && Hex(t.policyDigest, 64) && Hex(t.agent, 32) && Hex(t.epoch, 32)
    && Identifier(t.actor)
    && 0 < t.createdAt < t.expiresAt && t.expiresAt - t.createdAt <= MAX_LIFETIME
    && (t.kind.SshAudit? || t.kind.ServiceStatus? ==> ResourceId(t.resource))
  }

  /** Payload bytes. Two spellings of one task are different bytes with equal fields;
      `layout` holds whatever a spelling adds to the canonical encoding. */
  datatype Payload = TaskText(task: Task, layout: string) | NotATask(bytes: string)

  function DecodeTask(p: Payload): (r: Option<Task>)
    ensures r.Some? ==> ValidTask(r.value)
  {
    if p.TaskText? && ValidTask(p.task) then Some(p.task) else None
  }

  datatype Status = Running | Succeeded | Failed | Rejected | Expired | Indeterminate

  datatype Code =
    | NoCode | ExpiredCode | Future | PolicyMismatch | Paused | TaskDisabled | ResourceDenied
    | RateLimited | CollectorFailed | Deadline | ResultLimit | RecoveredAfterRestart

  /** Collector output. A report decodes as one of the four report types, names a resource for
      the two inspection types, and carries a time that must not lie after the end of the task. */
  datatype Data =
    | EmptyObject
    | Report(kind: TaskType, resource: string, observedAt: int64, wellFormed: bool, size: nat)

  datatype TaskResult = TaskResult(
    request: string, agent: string, epoch: string, kind: TaskType,
    startedAt: int64, finishedAt: int64, status: Status, data: Data, code: Code, policyDigest: string)

  predicate ValidFailure(status: Status, code: Code) {
    match status
    case Rejected => code in {Paused, TaskDisabled, PolicyMismatch, RateLimited, Future, ResourceDenied}
    case Expired => code == ExpiredCode
    case Failed => code in {Deadline, CollectorFailed, ResultLimit}
    case Indeterminate => code == RecoveredAfterRestart
    case _ => false
  }

  /** Result.Validate. */
  predicate ValidResult(r: TaskResult) {
    && Hex(r.request, 32) && Hex(r.agent, 32) && Hex(r.epoch, 32) && Hex(r.policyDigest, 64)
    && 0 < r.startedAt <= r.finishedAt
    && if r.status.Succeeded? then
         r.code == NoCode && r.data.Report? && r.data.kind == r.kind && r.data.wellFormed
         && r.data.observedAt <= r.finishedAt
       else
         ValidFailure(r.status, r.code) && r.data == EmptyObject
  }

  /** Result.CheckAssignment. */
  predicate CheckAssignment(r: TaskResult, t: Task) {
    && r.request == t.request && r.agent == t.agent && r.epoch == t.epoch && r.kind == t.kind
    && (r.status.Succeeded? && (t.kind.SshAudit? || t.kind.ServiceStatus?) ==>
          ResourceId(t.resource) && r.data.Report? && r.data.kind == t.kind && r.data.wellFormed
          && r.data.observedAt <= r.finishedAt && r.data.resource == t.resource)
  }

  /** Result bytes: the canonical encoding plus what a different spelling adds to it. */
  datatype ResultText = ResultText(result: TaskResult, layout: string) | NotAResult(bytes: string)

  function Marshal(r: TaskResult): ResultText {
    ResultText(r, "")
  }

  function DecodeResult(x: ResultText): (r: Option<TaskResult>)
    ensures r.Some? ==> ValidResult(r.value)
  {
    if x.ResultText? && ValidResult(x.result) then Some(x.result) else None
  }

  function Digits(n: nat): (d: nat) {
    if n < 10 then 1 else 1 + Digits(n / 10)
  }

  function DecimalSize(n: int): nat {
    if n < 0 then 1 + Digits(-n) else Digits(n)
  }

  function KindSize(k: TaskType): nat {
    match k
    case SystemInfo => 11
    case SystemMetrics => 14
    case SshAudit => 9
    case ServiceStatus => 14
  }

  function StatusSize(s: Status): nat {
    match s
    case Running => 7
    case Succeeded => 9
    case Failed => 6
    case Rejected => 8
    case Expired => 7
    case Indeterminate => 13
  }

  function CodeSize(c: Code): nat {
    match c
    case NoCode => 0
    case ExpiredCode => 7
    case Future => 6
    case PolicyMismatch => 15
    case Paused => 6
    case TaskDisabled => 13
    case ResourceDenied => 15
    case RateLimited => 12
    case CollectorFailed => 16
    case Deadline => 8
    case ResultLimit => 12
    case RecoveredAfterRestart => 23
  }

  function DataSize(d: Data): nat {
    match d
    case EmptyObject => 2
    case Report(_, _, _, _, size) => size
  }

  /** Length of the JSON object that encoding/json writes for a result. */
  function EncodedSize(r: TaskResult): nat {
    159 + |r.request| + |r.agent| + |r.epoch| + KindSize(r.kind) + DecimalSize(r.startedAt)
    + DecimalSize(r.finishedAt) + StatusSize(r.status) + DataSize(r.data) + CodeSize(r.code)
    + |r.policyDigest|
  }

  function TextSize(x: ResultText): nat {
    match x
    case ResultText(r, layout) => EncodedSize(r) + |layout|
    case NotAResult(bytes) => |bytes|
  }

  function Pow10(k: nat): (p: nat)
    ensures p > 0
  {
    if k == 0 then 1 else 10 * Pow10(k - 1)
  }

  lemma {:induction false} DigitsBound(n: nat, k: nat)
    requires 1 <= k && n < Pow10(k)
    ensures Digits(n) <= k
  {
    if n >= 10 {
      assert Pow10(1) == 10;
      DigitsBound(n / 10, k - 1);
    }
  }

  lemma Pow10Doubles(k: nat)
    ensures Pow10(2 * k) == Pow10(k) * Pow10(k)
    ensures Pow10(k + 1) == 10 * Pow10(k)
  {
    if k > 0 { Pow10Doubles(k - 1); }
  }

  /** Every int64 prints in at most 20 characters, one of them the sign. */
  lemma DecimalSizeBound(n: int64)
    ensures DecimalSize(n) <= 20 && (n >= 0 ==> DecimalSize(n) <= 19)
  {
    assert Pow10(4) == 10000;
    Pow10Doubles(4);
    assert Pow10(8) == 100000000;
    assert Pow10(9) == 1000000000;
    Pow10Doubles(9);
    assert Pow10(18) == 1000000000000000000;
    assert Pow10(19) == 10000000000000000000;
    var m: int := n;
    DigitsBound(if m < 0 then -m else m, 19);
  }

  /** A valid result that is not a success encodes to fewer than 1024 bytes, whatever its times. */
  lemma FailureResultsAreSmall(r: TaskResult)
    requires ValidResult(r) && !r.status.Succeeded?
    ensures EncodedSize(r) < 1024
  {
    DecimalSizeBound(r.startedAt);
    DecimalSizeBound(r.finishedAt);
  }
}
