/** The hash-chained tables behind the ledgers of the two stores: what their own runs write always verifies, so
    audit.Verify never refuses a store at start (internal/audit/audit.go). */
module AuditRuns {
  import opened Core
  import opened Text
  import opened Ledgers
  import opened Audit
  import S = ServerState
  import SR = ServerRuns
  import ST = ServerTransactions
  import P = ProbeState
  import PI = ProbeInvariants
  import PR = ProbeRuns
  import PT = ProbeTheorems

  // ---- The table that a series of appends writes ----

  datatype Write = Write(event: Event, delta: int)

  function AppendAll(h: Hashing, writes: seq<Write>): Result<Table, AppendError> {
    if writes == [] then Ok(Initial(h))
    else
      var last := writes[|writes| - 1];
      match AppendAll(h, writes[..|writes| - 1])
      case Err(x) => Err(x)
      case Ok(t) => AppendRow(h, t, last.event, last.delta)
  }

  /** The table that holds these events in this order. */
  function Stored(h: Hashing, events: seq<Event>, reserved: int): Table {
    if events == [] then Initial(h).(reserved := reserved)
    else
      var t := Stored(h, events[..|events| - 1], reserved);
      var e := events[|events| - 1];
      Table(t.rows + [RowFor(h, t, e)], t.sequence + 1, Chain(h, t.head, e), reserved)
  }

  lemma {:induction false} StoredShape(h: Hashing, events: seq<Event>, reserved: int)
    ensures var t := Stored(h, events, reserved);
            && t.sequence == |t.rows| == |events| && t.reserved == reserved && HashAt(h, t.rows, |t.rows|) == t.head
            && forall i: nat :: i < |events| ==>
                 && t.rows[i].event == events[i] && t.rows[i].kind == events[i].kind
                 && t.rows[i].agent == events[i].agent && t.rows[i].request == events[i].request
                 && (Linked(h, t.rows, i) <==> Decodable(events[i]))
  {
    hide Decodable, Chain;
    if events != [] {
      var n := |events| - 1;
      StoredShape(h, events[..n], reserved);
      var before, t := Stored(h, events[..n], reserved), Stored(h, events, reserved);
      forall i: nat | i < n ensures Linked(h, t.rows, i) <==> Linked(h, before.rows, i) {
      }
    }
  }

  /** Exactly when audit.Verify accepts it: every event decodes and the log is within its capacity. */
  lemma StoredVerifiesIff(h: Hashing, events: seq<Event>, reserved: int)
    ensures Verified(h, Stored(h, events, reserved)) <==>
              && reserved >= 0 && |events| + reserved <= CAPACITY
              && forall i :: 0 <= i < |events| ==> Decodable(events[i])
  {
    hide Stored, Decodable, Linked;
    StoredShape(h, events, reserved);
    var t := Stored(h, events, reserved);
    if Verified(h, t) {
      forall i | 0 <= i < |events| ensures Decodable(events[i]) { assert Linked(h, t.rows, i); }
    }
  }

  lemma {:induction false} StoredReserves(h: Hashing, events: seq<Event>, a: int, b: int)
    ensures Stored(h, events, b) == Stored(h, events, a).(reserved := b)
  {
    if events != [] { StoredReserves(h, events[..|events| - 1], a, b); }
  }

  function Events(writes: seq<Write>): (r: seq<Event>)
    ensures |r| == |writes|
  {
    seq(|writes|, i requires 0 <= i < |writes| => writes[i].event)
  }

  function Reserved(writes: seq<Write>): int {
    if writes == [] then 0 else Reserved(writes[..|writes| - 1]) + writes[|writes| - 1].delta
  }

  /** Any series of successful appends of events that decode leaves the table that holds them, and it verifies. */
  lemma {:induction false} AppendsAreStored(h: Hashing, writes: seq<Write>)
    requires Lawful(h) && AppendAll(h, writes).Ok?
    requires forall i :: 0 <= i < |writes| ==> Decodable(writes[i].event)
    ensures AppendAll(h, writes).value == Stored(h, Events(writes), Reserved(writes))
    ensures Verified(h, AppendAll(h, writes).value)
  {
    hide Decodable, AppendRow, Chain, Linked;
    if writes != [] {
      var n := |writes| - 1;
      var last := writes[n];
      AppendsAreStored(h, writes[..n]);
      var t := AppendAll(h, writes[..n]).value;
      AppendedRows(h, t, last.event, last.delta);
      AppendVerifies(h, t, last);
      StoredReserves(h, Events(writes[..n]), Reserved(writes[..n]), Reserved(writes));
      assert Events(writes)[..n] == Events(writes[..n]);
    }
  }

  lemma AppendVerifies(h: Hashing, t: Table, w: Write)
    requires Lawful(h) && Verified(h, t) && AppendRow(h, t, w.event, w.delta).Ok? && Decodable(w.event)
    ensures var t' := AppendRow(h, t, w.event, w.delta).value;
            && Verified(h, t') && t'.sequence == t.sequence + 1 && t'.head == Chain(h, t.head, w.event)
            && t'.reserved == t.reserved + w.delta
  {
    hide ValidEvent, Verified, Lawful, Chain;
    AppendVerifiesIffDecodable(h, t, w.event, w.delta);
  }

  // ---- The probe ----

  function ProbeKind(k: P.Kind): string {
    match k
    case StateInitialized => "state_initialized"
    case TaskAccepted => "task_accepted"
    case TaskRejected => "task_rejected"
    case TaskCompleted => "task_completed"
    case TaskRecovered => "task_recovered"
    case TaskConflict => "task_conflict"
    case InvalidTask => "invalid_task"
    case PolicyChanged => "policy_changed"
    case ClockRollback => "clock_rollback"
    case TrustChanged => "signer_trust_changed"
  }

  /** The stored form of an event of the probe; its source is "local" or a server origin the worker was given. */
  predicate ProbeWrites(origins: set<string>, e: P.Event, stored: Event) {
    && ValidEvent(stored) && stored.kind == ProbeKind(e.kind) && stored.request == e.request
    && (stored.source == "local" || stored.source in origins)
  }

  ghost predicate ProbeLog(origins: set<string>, l: Ledger<P.Event>, stored: seq<Event>) {
    |stored| == |l.events| && forall i :: 0 <= i < |stored| ==> ProbeWrites(origins, l.events[i], stored[i])
  }

  /** No two rows collide in the unique index on execution decisions. */
  predicate OneDecision(rows: seq<Row>) {
    forall i, j :: 0 <= i < j < |rows| && Decision(rows[i].kind) && Decision(rows[j].kind) ==>
                     rows[i].request != rows[j].request || rows[i].agent != rows[j].agent
  }

  /** Recovery with audit.Verify run on the table itself. */
  function RecoverWith(h: Hashing, t: Table, s: P.State, node: P.Node, verifier: P.Binding, now: int64): P.Tx<()> {
    if node == s.node && P.Matches(s.binding, verifier) && !Verified(h, t) then P.Tx(s, Err(P.AuditCorrupt))
    else P.Recover(s, node, verifier, now)
  }

  lemma {:induction false} LocalSize(s: string)
    requires s in {"local", "local-restore", "server", "unknown"}
    ensures EscapedTextSize(s) <= MAX_ESCAPED_SOURCE
  {
    PlainSize(s);
    ShortText(s);
  }

  lemma {:induction false} ShortText(s: string)
    ensures ByteSize(s) <= 4 * |s|
  {
    if s != [] { ShortText(s[..|s| - 1]); }
  }

  lemma ProbeDecodes(origins: set<string>, e: P.Event, stored: Event)
    requires ProbeWrites(origins, e, stored) && forall o :: o in origins ==> EscapedTextSize(o) <= MAX_ESCAPED_SOURCE
    ensures Decodable(stored)
  {
    hide ValidEvent, EscapedTextSize;
    if stored.source == "local" { LocalSize(stored.source); }
    ShortSourcesAreDecodable(stored);
  }

  lemma DecisionKind(k: P.Kind)
    ensures Decision(ProbeKind(k)) <==> k.TaskAccepted? || k.TaskRejected?
  {
    if Decision(ProbeKind(k)) {
      assert ProbeKind(k)[0] == 't' && ProbeKind(k)[5] in {'a', 'r'} && ProbeKind(k)[7] in {'c', 'j'};
    }
  }

  lemma ProbeDecidesOnce(h: Hashing, origins: set<string>, l: Ledger<P.Event>, stored: seq<Event>)
    requires ProbeLog(origins, l, stored) && PI.UniqueDecisions(l)
    ensures OneDecision(Stored(h, stored, l.reserved).rows)
  {
    hide ValidEvent, Stored, Linked, Decodable, ProbeKind, Decision;
    StoredShape(h, stored, l.reserved);
    var rows := Stored(h, stored, l.reserved).rows;
    forall i, j | 0 <= i < j < |rows| && Decision(rows[i].kind) && Decision(rows[j].kind)
      ensures rows[i].request != rows[j].request {
      DecisionKind(l.events[i].kind);
      DecisionKind(l.events[j].kind);
    }
  }

  /** Over every run of the probe, whatever times, digests and codes its events carry: the table behind its ledger
      verifies if and only if every stored event is within the decoding limit, which it is when every server origin
      takes at most 1338 bytes in JSON; and the unique index never refuses a decision. */
  lemma ProbeLogVerifies(
      node: P.Node, binding: P.Binding, now: int64, steps: seq<PR.Step>, h: Hashing, origins: set<string>,
      stored: seq<Event>)
    requires ProbeLog(origins, PR.After(PR.Start(node, binding, now), steps).state.audit, stored)
    ensures var t := Stored(h, stored, PR.After(PR.Start(node, binding, now), steps).state.audit.reserved);
            && (Verified(h, t) <==> forall i :: 0 <= i < |stored| ==> EventSize(stored[i]) <= 2048)
            && ((forall o :: o in origins ==> EscapedTextSize(o) <= MAX_ESCAPED_SOURCE) ==> Verified(h, t))
            && OneDecision(t.rows)
  {
    hide PR.After, PR.Start, ValidEvent, Stored, Verified, OneDecision, EscapedTextSize, EventSize;
    PT.RunIsGood(node, binding, now, steps);
    var s := PR.After(PR.Start(node, binding, now), steps).state;
    ProbeSound(PR.After(PR.Start(node, binding, now), steps));
    StoredVerifiesIff(h, stored, s.audit.reserved);
    ProbeDecidesOnce(h, origins, s.audit, stored);
    forall i | 0 <= i < |stored| ensures Decodable(stored[i]) <==> EventSize(stored[i]) <= MAX_EVENT_BYTES {
      assert ProbeWrites(origins, s.audit.events[i], stored[i]);
    }
    if forall o :: o in origins ==> EscapedTextSize(o) <= MAX_ESCAPED_SOURCE {
      forall i | 0 <= i < |stored| ensures Decodable(stored[i]) {
        ProbeDecodes(origins, s.audit.events[i], stored[i]);
      }
    }
  }

  lemma ProbeSound(w: PR.World)
    requires PT.Good(w)
    ensures Sound(w.state.audit) && PI.UniqueDecisions(w.state.audit)
  {
    hide PT.FlightOk, PT.EnteredOk, PT.RatesOk, PT.CountsAgree, PT.RepliesOk;
  }

  /** Over every run, recovery with the whole of audit.Verify refuses the store the worker left behind only for
      another identity or verifier or because of the clock. */
  lemma RecoveryAcceptsTheLog(
      node: P.Node, binding: P.Binding, now: int64, steps: seq<PR.Step>, h: Hashing, origins: set<string>,
      stored: seq<Event>, again: P.Node, verifier: P.Binding, later: int64)
    requires ProbeLog(origins, PR.After(PR.Start(node, binding, now), steps).state.audit, stored)
    requires forall o :: o in origins ==> EscapedTextSize(o) <= MAX_ESCAPED_SOURCE
    ensures var s := PR.After(PR.Start(node, binding, now), steps).state;
            var t := Stored(h, stored, s.audit.reserved);
            RecoverWith(h, t, s, again, verifier, later).result.Ok? <==>
              again == s.node && P.Matches(s.binding, verifier) && P.Clock(s, later).ClockRuns?
  {
    hide PR.After, PR.Start, ProbeLog, Stored, Verified, P.Recover, P.Matches, P.Clock, EscapedTextSize;
    ProbeLogVerifies(node, binding, now, steps, h, origins, stored);
    PT.StoreAcceptsItself(node, binding, now, steps, again, verifier, later);
  }

  // ---- The server ----

  /** The kinds under which an event of the server is stored. */
  function ServerKinds(k: S.Kind): set<string> {
    match k
    case StateInitialized => {"state_initialized"}
    case StateMigrated => {"state_migrated", "credentials_migrated", "signer_schema_migrated"}
    case TokenIssued => {"token_issued"}
    case NodeEnrolled => {"node_enrolled"}
    case NodeDisabled => {"node_disabled"}
    case DisableUnchanged => {"node_disable_unchanged"}
    case TaskQueued => {"task_queued"}
    case TaskDispatched => {"task_dispatched"}
    case TaskExpired => {"task_expired"}
    case TaskCancelled => {"task_cancelled"}
    case ResultReceived => {"result_received"}
    case SignerConfigured => {"signing_key_configured"}
    case DispatchChanged => {"dispatch_state_changed"}
    case TrustChanged => {"signer_trust_changed"}
    case SignerSelected => {"signer_selected"}
    case UserCreated => {"user_created_Admin", "user_created_ReadOnly"}
    case UserChanged => {"user_password", "user_role_Admin", "user_role_ReadOnly", "user_disable", "user_revoke"}
    case AllSessionsRevoked => {"all_sessions_revoked"}
    case RestoreQuarantined => {"restore_quarantined"}
    case LoginLimited => {"login_limited"}
    case LoginAttempted => {"login_attempt"}
    case LoginFailed => {"login_failed"}
    case LoginSucceeded => {"login_succeeded"}
    case SessionExpired => {"session_expired"}
    case SessionRevoked => {"session_revoked"}
    case SessionLogout => {"session_logout"}
    case AdminDenied => {"admin_denied"}
    case AdminRejected => {"admin_rejected"}
    case RecordsRead =>
      {"session_read", "nodes_read", "tasks_read", "audit_read", "users_read", "signers_read", "certificates_read"}
    case CertificateRenewed => {"certificate_renewed"}
    case CertificateRevoked => {"certificate_revoked"}
  }

  /** An IP address as net.ParseIP takes it: no zone, no brackets. */
  predicate Address(s: string) {
    forall i ::
      0 <= i < |s| ==> '0' <= s[i] <= '9' || 'a' <= s[i] <= 'f' || 'A' <= s[i] <= 'F' || s[i] == ':' || s[i] == '.'
  }

  /** The sources the server names: its own, or what audit.Peer makes of a remote address. */
  predicate ServerSource(s: string) {
    s in {"local", "local-restore", "server", "unknown"} || Address(s)
  }

  predicate ServerWrites(e: S.Event, stored: Event) {
    ValidEvent(stored) && stored.kind in ServerKinds(e.kind) && ServerSource(stored.source)
  }

  ghost predicate ServerLog(l: Ledger<S.Event>, stored: seq<Event>) {
    |stored| == |l.events| && forall i :: 0 <= i < |stored| ==> ServerWrites(l.events[i], stored[i])
  }

  lemma ServerDecodes(e: S.Event, stored: Event)
    requires ServerWrites(e, stored)
    ensures Decodable(stored) && !Decision(stored.kind)
  {
    hide ValidEvent, EscapedTextSize, Decision, ServerKinds;
    if Address(stored.source) {
      PlainSourcesAreDecodable(stored);
    } else {
      LocalSize(stored.source);
      ShortSourcesAreDecodable(stored);
    }
    ServerKindShape(e.kind, stored.kind);
    if Decision(stored.kind) { DecisionShape(stored.kind); }
  }

  lemma ServerKindShape(k: S.Kind, kind: string)
    requires kind in ServerKinds(k)
    ensures |kind| > 0 && (|kind| == 13 ==> kind[0] != 't')
  {
  }

  lemma DecisionShape(kind: string)
    requires Decision(kind)
    ensures |kind| == 13 && kind[0] == 't'
  {
  }

  /** Over every run of the server, whatever times, digests, codes and remote addresses its events carry: the table
      behind its ledger verifies and holds no execution decision, so neither audit.Verify nor the reservation check
      refuses the store when it is opened again. */
  lemma ServerLogVerifies(now: int64, steps: seq<SR.Step>, h: Hashing, stored: seq<Event>)
    requires ServerLog(SR.After(SR.Start(now), steps).db.ledger, stored)
    ensures var db := SR.After(SR.Start(now), steps).db;
            var t := Stored(h, stored, db.ledger.reserved);
            Verified(h, t) && OneDecision(t.rows) && S.StartupCheck(db)
  {
    hide SR.After, SR.Start, Stored, Verified, ServerWrites, Decodable, Decision, Linked;
    var db := SR.After(SR.Start(now), steps).db;
    SR.ReservationsConserved(now, steps);
    forall i | 0 <= i < |stored| ensures Decodable(stored[i]) && !Decision(stored[i].kind) {
      ServerDecodes(db.ledger.events[i], stored[i]);
    }
    StoredVerifiesIff(h, stored, db.ledger.reserved);
    StoredShape(h, stored, db.ledger.reserved);
  }
}
