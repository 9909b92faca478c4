/** The hash-chained audit table (internal/audit/audit.go). */
module Audit {
  import opened Core
  import opened Text
  import opened Ledgers
  import Protocol

  const MAX_EVENT_BYTES := 2048

  datatype Event = Event(
    at: int64, kind: string, agent: string, epoch: string, request: string, taskType: string,
    actor: string, source: string, status: string, code: string,
    policyDigest: string, payloadDigest: string, resultDigest: string)

  predicate IdentifierChar(c: char) {
    Protocol.IdentifierChar(c) || c == '.'
  }

  predicate Identifier(s: string, max: nat) {
    |s| <= max && forall i :: 0 <= i < |s| ==> IdentifierChar(s[i])
  }

  predicate KnownTask(s: string) {
    s in {"system.info", "system.metrics", "ssh.audit", "service.status"}
  }

  predicate OptionalHex(s: string, n: nat) {
    s == "" || Hex(s, n)
  }

  /** Event.validate. */
  predicate ValidEvent(e: Event) {
    && e.at > 0 && e.kind != "" && Identifier(e.kind, 40) && Identifier(e.actor, 64)
    && Identifier(e.status, 32) && Identifier(e.code, 64) && CleanText(e.source, 256)
    && OptionalHex(e.agent, 32) && OptionalHex(e.epoch, 32) && OptionalHex(e.request, 32)
    && OptionalHex(e.policyDigest, 64) && OptionalHex(e.payloadDigest, 64) && OptionalHex(e.resultDigest, 64)
    && (e.taskType != "" ==> KnownTask(e.taskType))
  }

  /** Bytes one character takes inside a string written by encoding/json, which escapes
      quotes and backslashes in two bytes and <, >, & and the two line separators in six. */
  function EscapedSize(c: char): (n: nat)
    ensures n <= 6
  {
    if c == '"' || c == '\\' then 2
    else if c == '<' || c == '>' || c == '&' || c == '\U{2028}' || c == '\U{2029}' then 6
    else Utf8Size(c)
  }

  function EscapedTextSize(s: string): nat {
    if s == [] then 0 else EscapedTextSize(s[..|s| - 1]) + EscapedSize(s[|s| - 1])
  }

  /** Length of the JSON object stored for an event; only the source can need escapes. */
  function EventSize(e: Event): nat {
    189 + Protocol.DecimalSize(e.at) + |e.kind| + |e.agent| + |e.epoch| + |e.request| + |e.taskType| + |e.actor|
    + EscapedTextSize(e.source) + |e.status| + |e.code| + |e.policyDigest| + |e.payloadDigest| + |e.resultDigest|
  }

  /** What audit.decode accepts when it reads a stored event back. */
  predicate Decodable(e: Event) {
    EventSize(e) <= MAX_EVENT_BYTES && ValidEvent(e)
  }

  /** The two library functions behind the chain, SHA-256 in hexadecimal and JSON encoding, and
      the hash that stands before the first event. */
  datatype Hashing = Hashing(sha: string -> string, json: Event -> string, genesis: string)

  ghost predicate Lawful(h: Hashing) {
    && |h.genesis| == 64 && (forall i :: 0 <= i < 64 ==> h.genesis[i] == '0')
    && (forall x {:trigger h.sha(x)} :: Hex(h.sha(x), 64))
    && (forall d, e {:trigger h.json(d), h.json(e)} :: h.json(d) == h.json(e) ==> d == e)
  }

  const DOMAIN := "argus-c2/audit/v1\0"

  function Frame(previous: string, data: string): string {
    DOMAIN + previous + "\0" + data
  }

  function Chain(h: Hashing, previous: string, e: Event): string {
    h.sha(Frame(previous, h.json(e)))
  }

  datatype Row = Row(
    sequence: int, event: Event, previous: string, hash: string, kind: string, agent: string, request: string)

  /** audit_events in primary-key order, and the single row of audit_head. */
  datatype Table = Table(rows: seq<Row>, sequence: int, head: string, reserved: int)

  function Initial(h: Hashing): Table {
    Table([], 0, h.genesis, 0)
  }

  /** SELECT ... WHERE sequence=n. */
  function Find(rows: seq<Row>, n: int): Option<Row> {
    if rows == [] then None
    else if rows[|rows| - 1].sequence == n then Some(rows[|rows| - 1])
    else Find(rows[..|rows| - 1], n)
  }

  /** Insert by primary key; None when the key is taken. */
  function Insert(rows: seq<Row>, row: Row): Option<seq<Row>> {
    if rows == [] || rows[|rows| - 1].sequence < row.sequence then Some(rows + [row])
    else if rows[|rows| - 1].sequence == row.sequence then None
    else
      match Insert(rows[..|rows| - 1], row)
      case None => None
      case Some(rest) => Some(rest + [rows[|rows| - 1]])
  }

  predicate Decision(kind: string) {
    kind == "task_accepted" || kind == "task_rejected"
  }

  /** The partial unique index on (agent_id, request_id) over execution decisions. */
  predicate DecisionTaken(rows: seq<Row>, e: Event) {
    Decision(e.kind) &&
    exists i :: 0 <= i < |rows| && Decision(rows[i].kind) && rows[i].agent == e.agent && rows[i].request == e.request
  }

  datatype AppendError = InvalidEvent | InvalidHead | Full | HeadMismatch | KeyTaken | AlreadyDecided

  function RowFor(h: Hashing, t: Table, e: Event): Row {
    Row(t.sequence + 1, e, t.head, Chain(h, t.head, e), e.kind, e.agent, e.request)
  }

  /** audit.Append on an event whose time has been filled in. */
  function AppendRow(h: Hashing, t: Table, e: Event, delta: int): Result<Table, AppendError> {
    if !ValidEvent(e) then Err(InvalidEvent)
    else if t.sequence < 0 || !Hex(t.head, 64) || t.reserved + delta < 0 then Err(InvalidHead)
    else if t.sequence + 1 + t.reserved + delta > CAPACITY then Err(Full)
    else if t.sequence > 0 && (Find(t.rows, t.sequence).None? || Find(t.rows, t.sequence).value.hash != t.head) then
      Err(HeadMismatch)
    else if DecisionTaken(t.rows, e) then Err(AlreadyDecided)
    else
      match Insert(t.rows, RowFor(h, t, e))
      case None => Err(KeyTaken)
      case Some(rows) => Ok(Table(rows, t.sequence + 1, Chain(h, t.head, e), t.reserved + delta))
  }

  /** Head hash after the first n rows. */
  function HashAt(h: Hashing, rows: seq<Row>, n: nat): string
    requires n <= |rows|
  {
    if n == 0 then h.genesis else rows[n - 1].hash
  }

  predicate Linked(h: Hashing, rows: seq<Row>, i: nat)
    requires i < |rows|
  {
    var row := rows[i];
    && Decodable(row.event) && row.sequence == i + 1 && row.previous == HashAt(h, rows, i)
    && row.hash == Chain(h, row.previous, row.event)
    && row.kind == row.event.kind && row.agent == row.event.agent && row.request == row.event.request
  }

  /** What audit.Verify accepts. */
  predicate Verified(h: Hashing, t: Table) {
    && 0 <= t.sequence && 0 <= t.reserved && t.sequence + t.reserved <= CAPACITY
    && |t.rows| == t.sequence && HashAt(h, t.rows, |t.rows|) == t.head
    && forall i: nat :: i < |t.rows| ==> Linked(h, t.rows, i)
  }

  /** The ledger that the rest of the model works with. */
  function View(t: Table): Ledger<Event> {
    Ledger(seq(|t.rows|, i requires 0 <= i < |t.rows| => t.rows[i].event), t.reserved)
  }

  lemma InsertAtEnd(rows: seq<Row>, row: Row)
    requires forall i :: 0 <= i < |rows| ==> rows[i].sequence < row.sequence
    ensures Insert(rows, row) == Some(rows + [row])
  {
  }

  lemma HeadIsHex(h: Hashing, t: Table)
    requires Lawful(h) && Verified(h, t)
    ensures Hex(t.head, 64)
    ensures t.sequence > 0 ==> Find(t.rows, t.sequence) == Some(t.rows[|t.rows| - 1])
  {
    if |t.rows| > 0 {
      assert Linked(h, t.rows, |t.rows| - 1);
    }
  }

  lemma AppendedRows(h: Hashing, t: Table, e: Event, delta: int)
    requires Verified(h, t) && AppendRow(h, t, e, delta).Ok?
    ensures AppendRow(h, t, e, delta).value.rows == t.rows + [RowFor(h, t, e)]
  {
    forall i | 0 <= i < |t.rows| ensures t.rows[i].sequence < t.sequence + 1 {
      assert Linked(h, t.rows, i);
    }
    InsertAtEnd(t.rows, RowFor(h, t, e));
  }

  /** On a verified table Append is exactly the ledger's append: it adds this event, and fails for
      capacity or reservations precisely when the ledger does. */
  lemma AppendRefinesLedger(h: Hashing, t: Table, e: Event, delta: int)
    requires Lawful(h) && Verified(h, t) && ValidEvent(e) && !DecisionTaken(t.rows, e)
    ensures AppendRow(h, t, e, delta).Ok? <==> Ledgers.Append(View(t), e, delta).Ok?
    ensures AppendRow(h, t, e, delta).Ok? ==>
              View(AppendRow(h, t, e, delta).value) == Ledgers.Append(View(t), e, delta).value
    ensures AppendRow(h, t, e, delta) == Err(Full) <==> Ledgers.Append(View(t), e, delta) == Err(AuditFull)
  {
    HeadIsHex(h, t);
    forall i | 0 <= i < |t.rows| ensures t.rows[i].sequence < t.sequence + 1 {
      assert Linked(h, t.rows, i);
    }
    InsertAtEnd(t.rows, RowFor(h, t, e));
  }

  /** A successful append to a verified table leaves a verified table if and only if the stored
      event is short enough to be decoded again. */
  lemma AppendVerifiesIffDecodable(h: Hashing, t: Table, e: Event, delta: int)
    requires Lawful(h) && Verified(h, t) && AppendRow(h, t, e, delta).Ok?
    ensures Verified(h, AppendRow(h, t, e, delta).value) <==> EventSize(e) <= 2048
  {
    var t' := AppendRow(h, t, e, delta).value;
    AppendedRows(h, t, e, delta);
    var n := |t.rows|;
    if EventSize(e) <= MAX_EVENT_BYTES {
      forall i: nat | i < |t'.rows| ensures Linked(h, t'.rows, i) {
        if i < n { assert Linked(h, t.rows, i); }
      }
    } else {
      assert !Linked(h, t'.rows, n);
    }
  }

  lemma {:induction false} EscapedSizes(s: string)
    requires forall i :: 0 <= i < |s| ==> s[i] == '<'
    ensures ByteSize(s) == |s| && EscapedTextSize(s) == 6 * |s|
  {
    if s != [] { EscapedSizes(s[..|s| - 1]); }
  }

  /** A well-formed event whose source consists of 8k characters that JSON escapes in six bytes. */
  function EscapedEvent(k: nat): Event {
    Event(1, Repeat('k', k), Repeat('0', k), Repeat('0', k), Repeat('0', k), "", Repeat('a', 2 * k), Repeat('<', 8 * k),
          Repeat('s', k), "", Repeat('0', 2 * k), Repeat('0', 2 * k), Repeat('0', 2 * k))
  }

  lemma EscapedEventIsLong(k: nat)
    requires k == ID_SIZE
    ensures EventSize(EscapedEvent(k)) > MAX_EVENT_BYTES && ByteSize(EscapedEvent(k).source) == 256
  {
    EscapedSizes(Repeat('<', 8 * k));
    hide Repeat, ByteSize, EscapedTextSize;
  }

  lemma EscapedEventIsValid(k: nat)
    requires k == ID_SIZE
    ensures ValidEvent(EscapedEvent(k))
  {
    EscapedEventIsLong(k);
    hide Repeat, ByteSize;
    var e := EscapedEvent(k);
    assert Identifier(e.kind, 40) && e.kind != "";
    assert Identifier(e.actor, 64) && Identifier(e.status, 32) && CleanText(e.source, 256);
    assert Hex(e.agent, 32) && Hex(e.policyDigest, 64);
  }

  lemma FirstAppend(h: Hashing, e: Event)
    requires Lawful(h) && ValidEvent(e)
    ensures Verified(h, Initial(h)) && AppendRow(h, Initial(h), e, 0).Ok?
  {
    hide ValidEvent, Decision;
    assert Hex(h.genesis, 64);
  }

  /** Append accepts an event with a 256-byte source of '<', and the table that results does not verify. */
  lemma AppendCanBreakVerify(h: Hashing) returns (e: Event)
    requires Lawful(h)
    ensures ValidEvent(e) && AppendRow(h, Initial(h), e, 0).Ok?
    ensures !Verified(h, AppendRow(h, Initial(h), e, 0).value)
  {
    hide EscapedEvent, ValidEvent, EventSize, AppendRow, Verified;
    EscapedEventIsLong(ID_SIZE);
    EscapedEventIsValid(ID_SIZE);
    e := EscapedEvent(ID_SIZE);
    FirstAppend(h, e);
    AppendVerifiesIffDecodable(h, Initial(h), e, 0);
  }

  /** Characters that encoding/json writes as they are. */
  predicate Unescaped(c: char) {
    c !in {'"', '\\', '<', '>', '&', '\U{2028}', '\U{2029}'}
  }

  lemma {:induction false} PlainSize(s: string)
    requires forall i :: 0 <= i < |s| ==> Unescaped(s[i])
    ensures EscapedTextSize(s) == ByteSize(s)
  {
    if s != [] { PlainSize(s[..|s| - 1]); }
  }

  const MAX_ESCAPED_SOURCE := 1338

  /** Every valid event whose source takes at most 1338 bytes in JSON is decodable, whatever its other
      fields hold. */
  lemma ShortSourcesAreDecodable(e: Event)
    requires ValidEvent(e) && EscapedTextSize(e.source) <= MAX_ESCAPED_SOURCE
    ensures Decodable(e)
  {
    hide EscapedTextSize, ByteSize;
    Protocol.DecimalSizeBound(e.at);
  }

  /** In particular every valid event whose source needs no escapes, such as an address or a URL. */
  lemma PlainSourcesAreDecodable(e: Event)
    requires ValidEvent(e) && forall i :: 0 <= i < |e.source| ==> Unescaped(e.source[i])
    ensures Decodable(e)
  {
    PlainSize(e.source);
    ShortSourcesAreDecodable(e);
  }

  lemma FrameInjective(p: string, d: string, q: string, e: string)
    requires |p| == |q| && Frame(p, d) == Frame(q, e)
    ensures p == q && d == e
  {
    var x, y := Frame(p, d), Frame(q, e);
    var k := |DOMAIN|;
    assert p == x[k..k + |p|] && q == y[k..k + |q|];
    assert d == x[k + |p| + 1..] && e == y[k + |q| + 1..];
  }

  lemma HashLength(h: Hashing, t: Table, n: nat)
    requires Lawful(h) && Verified(h, t) && n <= |t.rows|
    ensures |HashAt(h, t.rows, n)| == 64
  {
    if n > 0 { assert Linked(h, t.rows, n - 1); }
  }

  /** What was hashed for the row at position i. */
  function Hashed(h: Hashing, rows: seq<Row>, i: nat): string
    requires i < |rows|
  {
    Frame(rows[i].previous, h.json(rows[i].event))
  }

  /** The rows at position i of two tables exhibit a collision: different inputs, one hash. */
  predicate CollideAt(h: Hashing, a: Table, b: Table, i: nat) {
    && i < |a.rows| && i < |b.rows|
    && Hashed(h, a.rows, i) != Hashed(h, b.rows, i) && h.sha(Hashed(h, a.rows, i)) == h.sha(Hashed(h, b.rows, i))
  }

  /** Tables that agree on the head hash after n rows agree on all n rows, or two of their rows collide. */
  lemma {:induction false} SamePrefix(h: Hashing, a: Table, b: Table, n: nat)
    requires Lawful(h) && Verified(h, a) && Verified(h, b)
    requires n <= |a.rows| && n <= |b.rows| && HashAt(h, a.rows, n) == HashAt(h, b.rows, n)
    ensures a.rows[..n] == b.rows[..n] || exists i: nat :: i < n && CollideAt(h, a, b, i)
  {
    if n > 0 && !CollideAt(h, a, b, n - 1) {
      var p, q := a.rows[n - 1], b.rows[n - 1];
      assert Linked(h, a.rows, n - 1) && Linked(h, b.rows, n - 1);
      assert Hashed(h, a.rows, n - 1) == Hashed(h, b.rows, n - 1);
      HashLength(h, a, n - 1);
      HashLength(h, b, n - 1);
      FrameInjective(p.previous, h.json(p.event), q.previous, h.json(q.event));
      SamePrefix(h, a, b, n - 1);
      assert a.rows[..n] == a.rows[..n - 1] + [p];
      assert b.rows[..n] == b.rows[..n - 1] + [q];
    }
  }

  /** Two tables that verify with the same head sequence and head hash hold the same rows, or a row of
      one and the row at the same position of the other are a SHA-256 collision. */
  lemma HeadDeterminesRows(h: Hashing, a: Table, b: Table)
    requires Lawful(h) && Verified(h, a) && Verified(h, b)
    requires a.sequence == b.sequence && a.head == b.head
    ensures a.rows == b.rows || exists i: nat :: CollideAt(h, a, b, i)
  {
    SamePrefix(h, a, b, |a.rows|);
    assert a.rows == a.rows[..|a.rows|] && b.rows == b.rows[..|b.rows|];
  }

  /** The table as the transactions use it. */
  class AuditTable {
    const hashing: Hashing
    var rows: seq<Row>
    var sequence: int
    var head: string
    var reserved: int

    function Contents(): Table
      reads this
    {
      Table(rows, sequence, head, reserved)
    }

    /** audit.Initialize. */
    constructor (hashing: Hashing)
      ensures this.hashing == hashing && Contents() == Initial(hashing) && Verified(hashing, Contents())
    {
      this.hashing := hashing;
      rows, sequence, head, reserved := [], 0, hashing.genesis, 0;
    }

    /** audit.Append: the clock fills in a missing time. */
    method Append(e: Event, delta: int, now: int64) returns (r: Result<(), AppendError>)
      modifies this
      ensures var stamped := if e.at == 0 then e.(at := now) else e;
              match AppendRow(hashing, old(Contents()), stamped, delta)
              case Ok(t) => r == Ok(()) && Contents() == t
              case Err(x) => r == Err(x) && Contents() == old(Contents())
    {
      var stamped := e;
      if stamped.at == 0 {
        stamped := stamped.(at := now);
      }
      if !ValidEvent(stamped) {
        return Err(InvalidEvent);
      }
      if sequence < 0 || !Hex(head, 64) || reserved + delta < 0 {
        return Err(InvalidHead);
      }
      if sequence + 1 + reserved + delta > CAPACITY {
        return Err(Full);
      }
      if sequence > 0 {
        var actual := Find(rows, sequence);
        if actual.None? || actual.value.hash != head {
          return Err(HeadMismatch);
        }
      }
      var hash := Chain(hashing, head, stamped);
      if DecisionTaken(rows, stamped) {
        return Err(AlreadyDecided);
      }
      var inserted :=
        Insert(rows, Row(sequence + 1, stamped, head, hash, stamped.kind, stamped.agent, stamped.request));
      if inserted.None? {
        return Err(KeyTaken);
      }
      rows := inserted.value;
      sequence, head, reserved := sequence + 1, hash, reserved + delta;
      return Ok(());
    }

    /** audit.Verify: one pass over the rows with a running hash and counter. */
    method Verify() returns (ok: bool)
      ensures ok <==> Verified(hashing, Contents())
    {
      hide Decodable, Chain;
      if sequence < 0 || sequence + reserved > CAPACITY || reserved < 0 {
        return false;
      }
      var n: nat := 0;
      var previous := hashing.genesis;
      while n < |rows| && n <= CAPACITY
        invariant 0 <= n <= |rows|
        invariant previous == HashAt(hashing, rows, n)
        invariant forall i: nat :: i < n ==> Linked(hashing, rows, i)
      {
        var row := rows[n];
        if !Decodable(row.event) {
          assert !Linked(hashing, rows, n);
          return false;
        }
        n := n + 1;
        if row.sequence != n || row.previous != previous || row.hash != Chain(hashing, row.previous, row.event)
           || row.kind != row.event.kind || row.agent != row.event.agent || row.request != row.event.request
        {
          assert !Linked(hashing, rows, n - 1);
          return false;
        }
        previous := row.hash;
      }
      return n == sequence && previous == head;
    }
  }
}
