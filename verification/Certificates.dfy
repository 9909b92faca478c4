/** Node credentials and certificate renewal (internal/state/certificates.go). Every query is keyed by
    agent ID, so the tables are held per node. */
module Certificates {
  import opened Core
  import opened Tables
  import opened Text
  import opened Ledgers

  const MAX_GENERATIONS := 64
  const OVERLAP := 86400
  const RENEWAL_INTERVAL := 3600
  const MAX_VALIDITY := 30 * 86400 + 60
  const MAX_CHAIN_BYTES := 12000
  const MAX_CSR_BYTES := 2048

  datatype Certificate = Certificate(
    agent: string, epoch: string, publicKey: string, notBefore: int, notAfter: int, serial: string)

  type Fingerprint = Sha256<Certificate>

  /** The PEM text of an issued certificate: the leaf it starts with and its length. */
  datatype Chain = Chain(certificate: Certificate, size: nat)

  datatype Csr = Csr(publicKey: string, raw: string)

  /** One row of node_credentials; zero `notAfter` means unknown metadata, zero `retireAt` not superseded. */
  datatype Credential = Credential(
    cert: Fingerprint, generation: int, notBefore: int, notAfter: int, retireAt: int, revoked: bool, issuedAt: int)

  datatype Response = Response(
    id: string, agent: string, epoch: string, generation: int, previous: Fingerprint, previousValidUntil: int,
    chain: Chain)

  datatype Renewal = Renewal(
    id: string, authorizing: Fingerprint, csr: Sha256<Csr>, next: Fingerprint, response: Response)

  datatype Record = Record(
    agent: string, epoch: string, enabled: bool, credentials: seq<Credential>, renewals: seq<Renewal>)

  /** Clock readings that one transaction takes, in order: three in seconds, and the one in nanoseconds that its
      audit event is stamped with. */
  datatype Times = Times(first: int, second: int, third: int, stamp: int)

  function FindCert(credentials: seq<Credential>, cert: Fingerprint): (r: Option<nat>)
    ensures r.Some? ==> r.value < |credentials| && credentials[r.value].cert == cert
    ensures r.None? ==> forall i :: 0 <= i < |credentials| ==> credentials[i].cert != cert
  {
    if credentials == [] then None
    else if credentials[|credentials| - 1].cert == cert then Some(|credentials| - 1)
    else FindCert(credentials[..|credentials| - 1], cert)
  }

  function FindRenewal(renewals: seq<Renewal>, id: string): (r: Option<nat>)
    ensures r.Some? ==> r.value < |renewals| && renewals[r.value].id == id
    ensures r.None? ==> forall i :: 0 <= i < |renewals| ==> renewals[i].id != id
  {
    if renewals == [] then None
    else if renewals[|renewals| - 1].id == id then Some(|renewals| - 1)
    else FindRenewal(renewals[..|renewals| - 1], id)
  }

  /** MAX(generation). */
  function Latest(credentials: seq<Credential>): int {
    if credentials == [] then 0
    else Max(Latest(credentials[..|credentials| - 1]), credentials[|credentials| - 1].generation)
  }

  /** Counted as active by the renewal limit. */
  predicate IsActive(c: Credential, now: int) {
    !c.revoked && (c.retireAt == 0 || c.retireAt > now) && (c.notAfter == 0 || c.notAfter > now)
  }

  function ActiveAt(now: int): Credential -> nat {
    (c: Credential) => if IsActive(c, now) then 1 else 0
  }

  /** authorizeCertificate. */
  predicate Authorised(rec: Record, cert: Certificate, now: int) {
    var i := FindCert(rec.credentials, Sha256(cert));
    && cert.notBefore <= now < cert.notAfter
    && cert.agent == rec.agent && cert.epoch == rec.epoch && rec.enabled && i.Some?
    && (var c := rec.credentials[i.value];
        && !c.revoked && (c.retireAt == 0 || c.retireAt > now)
        && (c.notAfter == 0 || c.notBefore <= now < c.notAfter))
  }

  /** credentialMetadata. */
  function WithMetadata(c: Credential): Credential {
    c.(notBefore := c.cert.preimage.notBefore, notAfter := c.cert.preimage.notAfter)
  }

  datatype Error = Rejected | Unauthorised | IssuerFailed | NotLogged

  /** DecodeRenewalResponse. */
  predicate ResponseOk(r: Response) {
    && Hex(r.id, 32) && Hex(r.agent, 32) && Hex(r.epoch, 32) && 2 <= r.generation <= MAX_GENERATIONS
    && r.previousValidUntil > 0 && 1 <= r.chain.size <= MAX_CHAIN_BYTES
  }

  /** Answering a renewal ID that is already on record. */
  function Replay(rec: Record, row: Renewal, current: Certificate, csr: Csr, now: int): Result<Response, Error> {
    var r := row.response;
    if row.authorizing != Sha256(current) || row.csr != Sha256(csr) || !ResponseOk(r) then Err(Rejected)
    else if r.agent != rec.agent || r.epoch != rec.epoch || r.id != row.id || r.previous != Sha256(current) then
      Err(Rejected)
    else if Sha256(r.chain.certificate) != row.next || !Authorised(rec, r.chain.certificate, now) then Err(Rejected)
    else Ok(r)
  }

  /** When the node may get another certificate. */
  predicate MayRenew(rec: Record, i: nat, now: int)
    requires i < |rec.credentials|
  {
    var c := rec.credentials[i];
    && c.generation == Latest(rec.credentials) && Sum(rec.credentials, ActiveAt(now)) < 2
    && |rec.credentials| < MAX_GENERATIONS && (c.generation > 1 ==> now - c.issuedAt >= RENEWAL_INTERVAL)
  }

  /** What the store checks of the certificate its issuer returns. */
  predicate AcceptableIssue(rec: Record, cert: Certificate, csr: Csr, now: int) {
    && cert.agent == rec.agent && cert.epoch == rec.epoch && cert.publicKey == csr.publicKey
    && now + 60 < cert.notAfter <= now + MAX_VALIDITY
  }

  function Cutoff(current: Certificate, next: Certificate, now: int): int {
    Min(Min(now + OVERLAP, current.notAfter), next.notAfter)
  }

  function Answer(rec: Record, current: Certificate, id: string, next: Chain, now: int): Response {
    Response(id, rec.agent, rec.epoch, Latest(rec.credentials) + 1, Sha256(current),
             Cutoff(current, next.certificate, now), next)
  }

  /** The record after issuing `next` in place of the credential at position i. */
  function Renewed(rec: Record, i: nat, current: Certificate, id: string, csr: Csr, next: Chain, now: int): Record
    requires i < |rec.credentials|
  {
    var response := Answer(rec, current, id, next, now);
    var cert := Sha256(next.certificate);
    rec.(credentials := rec.credentials[i := WithMetadata(rec.credentials[i]).(retireAt := response.previousValidUntil)]
                        + [WithMetadata(Credential(cert, response.generation, 0, 0, 0, false, now))],
         renewals := rec.renewals + [Renewal(id, Sha256(current), Sha256(csr), cert, response)])
  }

  datatype Tx = Tx(record: Record, result: Result<Response, Error>)

  /** RenewCertificate. `issued` is what the issuer returns, `logged` says that the audit log takes the event. */
  function Renew(
      rec: Record, current: Certificate, id: string, csr: Csr, issued: Option<Chain>, logged: bool, at: Times): Tx
  {
    if !Hex(id, 32) || |csr.raw| == 0 || |csr.raw| > MAX_CSR_BYTES then Tx(rec, Err(Rejected))
    else if !Authorised(rec, current, at.first) then Tx(rec, Err(Unauthorised))
    else
      match FindRenewal(rec.renewals, id)
      case Some(k) => Tx(rec, Replay(rec, rec.renewals[k], current, csr, at.second))
      case None =>
        var i := FindCert(rec.credentials, Sha256(current)).value;
        if !MayRenew(rec, i, at.second) then Tx(rec, Err(Rejected))
        else if issued.None? then Tx(rec, Err(IssuerFailed))
        else if !AcceptableIssue(rec, issued.value.certificate, csr, at.second)
          || FindCert(rec.credentials, Sha256(issued.value.certificate)).Some? then Tx(rec, Err(Rejected))
        else if !ResponseOk(Answer(rec, current, id, issued.value, at.second)) then Tx(rec, Err(Rejected))
        else if !logged then Tx(rec, Err(NotLogged))
        else
          var rec' := Renewed(rec, i, current, id, csr, issued.value, at.second);
          if !Authorised(rec', current, at.third) then Tx(rec, Err(Unauthorised))
          else Tx(rec', Ok(rec'.renewals[|rec.renewals|].response))
  }

  /** RevokeCertificate. */
  function Revoke(rec: Record, cert: Fingerprint, logged: bool): Record {
    match FindCert(rec.credentials, cert)
    case None => rec
    case Some(i) =>
      if logged then rec.(credentials := rec.credentials[i := rec.credentials[i].(revoked := true)]) else rec
  }

  /** The record that RegisterFrom creates; `metadata` when leaf and issuer certificates were supplied. */
  function Enrolled(cert: Certificate, metadata: bool, now: int): Record {
    var c := Credential(Sha256(cert), 1, 0, 0, 0, false, now);
    Record(cert.agent, cert.epoch, true, [if metadata then WithMetadata(c) else c], [])
  }

  // ---- Invariant of one node ----

  /** The k-th credential issued to a node has generation k + 1. */
  predicate Contiguous(credentials: seq<Credential>) {
    1 <= |credentials| <= MAX_GENERATIONS && forall k :: 0 <= k < |credentials| ==> credentials[k].generation == k + 1
  }

  predicate MetadataOk(c: Credential) {
    c.notAfter == 0 || WithMetadata(c) == c
  }

  function CertAt(credentials: seq<Credential>, k: int): Certificate
    requires 0 <= k < |credentials|
  {
    credentials[k].cert.preimage
  }

  /** When the k-th credential was to retire, as computed at the issue of its successor. */
  function CutoffAt(credentials: seq<Credential>, k: int): int
    requires 0 <= k < |credentials| - 1
  {
    Cutoff(CertAt(credentials, k), CertAt(credentials, k + 1), credentials[k + 1].issuedAt)
  }

  /** A superseded credential has known validity and the retirement time computed for it, which is never the
      zero that would mean none. */
  predicate Superseded(credentials: seq<Credential>, k: int)
    requires 0 <= k < |credentials| - 1
  {
    && credentials[k].retireAt == CutoffAt(credentials, k) > 0 && WithMetadata(credentials[k]) == credentials[k]
    && CertAt(credentials, k).notBefore < CertAt(credentials, k).notAfter
  }

  predicate ForNode(rec: Record, c: Credential) {
    c.cert.preimage.agent == rec.agent && c.cert.preimage.epoch == rec.epoch && MetadataOk(c)
  }

  predicate DistinctIds(renewals: seq<Renewal>) {
    forall i, j :: 0 <= i < j < |renewals| ==> renewals[i].id != renewals[j].id
  }

  predicate DistinctCerts(credentials: seq<Credential>) {
    forall i, j :: 0 <= i < j < |credentials| ==> credentials[i].cert != credentials[j].cert
  }

  /** A stored renewal holds an answer that passes the checks made when it is repeated. */
  predicate Repeatable(rec: Record, row: Renewal) {
    && ResponseOk(row.response) && row.response.agent == rec.agent && row.response.epoch == rec.epoch
    && row.response.id == row.id && row.response.previous == row.authorizing
    && Sha256(row.response.chain.certificate) == row.next
  }

  predicate RecordOk(rec: Record) {
    && (forall k :: 0 <= k < |rec.renewals| ==> Repeatable(rec, rec.renewals[k]))
    && Contiguous(rec.credentials) && DistinctCerts(rec.credentials) && DistinctIds(rec.renewals)
    && (forall k :: 0 <= k < |rec.credentials| ==> ForNode(rec, rec.credentials[k]))
    && rec.credentials[|rec.credentials| - 1].retireAt == 0
    && (forall k :: 0 <= k < |rec.credentials| - 1 ==> Superseded(rec.credentials, k))
  }

  predicate AtMostTwo(rec: Record, now: int) {
    Sum(rec.credentials, ActiveAt(now)) <= 2
  }

  lemma {:induction false} LatestIsCount(credentials: seq<Credential>)
    requires forall k :: 0 <= k < |credentials| ==> credentials[k].generation == k + 1
    ensures Latest(credentials) == |credentials|
  {
    if credentials != [] { LatestIsCount(credentials[..|credentials| - 1]); }
  }

  lemma {:induction false} FewerActiveLater(credentials: seq<Credential>, now: int, later: int)
    requires now <= later
    ensures Sum(credentials, ActiveAt(later)) <= Sum(credentials, ActiveAt(now))
  {
    if credentials != [] { FewerActiveLater(credentials[..|credentials| - 1], now, later); }
  }

  /** A renewal replaces the newest credential, whose retirement it sets for the first time. */
  lemma {:induction false} RenewedShape(
      rec: Record, i: nat, current: Certificate, id: string, csr: Csr, next: Chain, now: int)
    requires RecordOk(rec) && i < |rec.credentials| && rec.credentials[i].cert == Sha256(current)
             && MayRenew(rec, i, now)
    requires AcceptableIssue(rec, next.certificate, csr, now) && FindRenewal(rec.renewals, id).None?
             && current.notBefore < current.notAfter
    requires FindCert(rec.credentials, Sha256(next.certificate)).None?
             && ResponseOk(Answer(rec, current, id, next, now))
    ensures i == |rec.credentials| - 1
    ensures RecordOk(Renewed(rec, i, current, id, csr, next, now))
    ensures AtMostTwo(Renewed(rec, i, current, id, csr, next, now), now)
  {
    hide Latest, FindRenewal, FindCert, Sum, Cutoff;
    LatestIsCount(rec.credentials);
    var creds := rec.credentials;
    var was := WithMetadata(creds[i]).(retireAt := Cutoff(current, next.certificate, now));
    var added := WithMetadata(Credential(Sha256(next.certificate), Latest(creds) + 1, 0, 0, 0, false, now));
    var rec' := Renewed(rec, i, current, id, csr, next, now);
    assert ForNode(rec, creds[i]);
    SumUpdate(creds, i, was, ActiveAt(now));
    SumAppend(creds[i := was], added, ActiveAt(now));
    forall k | 0 <= k < |rec'.credentials| ensures ForNode(rec', rec'.credentials[k]) {
      if k < i { assert ForNode(rec, creds[k]); }
    }
    forall k | 0 <= k < |rec'.credentials| - 1 ensures Superseded(rec'.credentials, k) {
      if k < i { assert Superseded(creds, k); }
    }
  }

  lemma {:induction false} RevokedShape(rec: Record, cert: Fingerprint, logged: bool)
    requires RecordOk(rec)
    ensures RecordOk(Revoke(rec, cert, logged))
    ensures forall now: int :: AtMostTwo(rec, now) ==> AtMostTwo(Revoke(rec, cert, logged), now)
  {
    hide Sum, Cutoff;
    match FindCert(rec.credentials, cert)
    case None =>
    case Some(i) =>
      var c := rec.credentials[i].(revoked := true);
      var rec' := rec.(credentials := rec.credentials[i := c]);
      assert ForNode(rec, rec.credentials[i]);
      forall k | 0 <= k < |rec.credentials| - 1 ensures Superseded(rec'.credentials, k) {
        assert Superseded(rec.credentials, k);
      }
      forall now: int | AtMostTwo(rec, now) ensures AtMostTwo(rec', now) {
        SumUpdate(rec.credentials, i, c, ActiveAt(now));
      }
  }

  lemma EnrolledShape(cert: Certificate, metadata: bool, now: int)
    ensures RecordOk(Enrolled(cert, metadata, now)) && forall t: int :: AtMostTwo(Enrolled(cert, metadata, now), t)
  {
    var rec := Enrolled(cert, metadata, now);
    assert rec.credentials[..0] == [];
    forall t: int ensures AtMostTwo(rec, t) { assert Sum(rec.credentials[..0], ActiveAt(t)) == 0; }
  }

  // ---- Runs ----

  /** Events of the shared audit log, as far as they matter here. */
  datatype Event = CertificateRenewed(agent: string) | CertificateRevoked(agent: string) | OtherEvent

  /** An answered renewal request. */
  datatype Reply = Reply(agent: string, id: string, csr: Csr, response: Response)

  datatype World = World(nodes: map<string, Record>, audit: Ledger<Event>, now: int, replies: seq<Reply>)

  datatype Op =
    | Enroll(cert: Certificate, metadata: bool)
    | Disable(agent: string)
    | RenewFor(current: Certificate, id: string, csr: Csr, issued: Option<Chain>)
    | RevokeFor(agent: string, fingerprint: Fingerprint)
    | Elsewhere(delta: int)

  datatype Step = Step(op: Op, at: Times)

  /** Append as the store calls it: an event whose time stamp is not positive is refused. */
  function Logged(l: Ledger<Event>, e: Event, delta: int, stamp: int): Option<Ledger<Event>> {
    if stamp <= 0 then None
    else
      match Append(l, e, delta)
      case Err(_) => None
      case Ok(l') => Some(l')
  }

  function Noted(l: Ledger<Event>, e: Event, delta: int, stamp: int): Ledger<Event> {
    match Logged(l, e, delta, stamp)
    case None => l
    case Some(l') => l'
  }

  /** What RegisterFrom asks of a new node. */
  predicate Enrollable(nodes: map<string, Record>, cert: Certificate) {
    Hex(cert.agent, 32) && Hex(cert.epoch, 32) && cert.agent !in nodes
  }

  function Apply(w: World, step: Step): World {
    var w1, stamp := w.(now := step.at.third), step.at.stamp;
    match step.op
    case Enroll(cert, metadata) =>
      if !Enrollable(w.nodes, cert) || Logged(w.audit, OtherEvent, 1, stamp).None? then w1
      else w1.(nodes := w.nodes[cert.agent := Enrolled(cert, metadata, step.at.third)],
               audit := Noted(w.audit, OtherEvent, 1, stamp))
    case Disable(agent) =>
      if agent in w.nodes then w1.(nodes := w.nodes[agent := w.nodes[agent].(enabled := false)]) else w1
    case RenewFor(current, id, csr, issued) =>
      if current.agent !in w.nodes then w1
      else
        var rec, e := w.nodes[current.agent], CertificateRenewed(current.agent);
        var tx := Renew(rec, current, id, csr, issued, Logged(w.audit, e, 0, stamp).Some?, step.at);
        w1.(nodes := w.nodes[current.agent := tx.record],
            audit := if |tx.record.renewals| > |rec.renewals| then Noted(w.audit, e, 0, stamp) else w.audit,
            replies := if tx.result.Ok? then w.replies + [Reply(current.agent, id, csr, tx.result.value)]
                else w.replies)
    case RevokeFor(agent, cert) =>
      if agent !in w.nodes || FindCert(w.nodes[agent].credentials, cert).None? then w1
      else
        var e := CertificateRevoked(agent);
        w1.(nodes := w.nodes[agent := Revoke(w.nodes[agent], cert, Logged(w.audit, e, 0, stamp).Some?)],
            audit := Noted(w.audit, e, 0, stamp))
    case Elsewhere(delta) => w1.(audit := Noted(w.audit, OtherEvent, delta, stamp))
  }

  function After(w: World, steps: seq<Step>): World {
    if steps == [] then w else Apply(After(w, steps[..|steps| - 1]), steps[|steps| - 1])
  }

  function Start(now: int): World {
    World(map[], Ledger([], 0), now, [])
  }

  predicate Ordered(now: int, at: Times) {
    now <= at.first <= at.second <= at.third
  }

  ghost predicate Nondecreasing(w: World, steps: seq<Step>) {
    steps == [] ||
    (var n := |steps| - 1; Nondecreasing(w, steps[..n]) && Ordered(After(w, steps[..n]).now, steps[n].at))
  }

  /** A reply repeats the one renewal on record for its ID. */
  predicate OnRecord(nodes: map<string, Record>, a: Reply) {
    a.agent in nodes && exists k :: 0 <= k < |nodes[a.agent].renewals| && Answers(nodes[a.agent].renewals[k], a)
  }

  predicate Answers(row: Renewal, a: Reply) {
    row.id == a.id && row.csr == Sha256(a.csr) && row.response == a.response && 0 < |a.csr.raw| <= MAX_CSR_BYTES
  }

  ghost predicate Good(w: World) {
    && (forall agent :: agent in w.nodes ==> RecordOk(w.nodes[agent]))
    && (forall a :: a in w.replies ==> OnRecord(w.nodes, a))
  }

  ghost predicate Limited(w: World) {
    forall agent :: agent in w.nodes ==> AtMostTwo(w.nodes[agent], w.now)
  }

  /** Renewals and credentials are only ever added, revocation is final, and a record that had two active
      credentials has no more. */
  ghost predicate Extends(rec: Record, rec': Record, at: Times) {
    && |rec.renewals| <= |rec'.renewals|
    && (forall k :: 0 <= k < |rec.renewals| ==> rec'.renewals[k] == rec.renewals[k])
    && Outlasts(rec, rec')
    && (at.first <= at.second <= at.third && AtMostTwo(rec, at.first) ==> AtMostTwo(rec', at.third))
  }

  ghost predicate Outlasts(rec: Record, rec': Record) {
    && rec'.agent == rec.agent && |rec.credentials| <= |rec'.credentials|
    && forall k :: 0 <= k < |rec.credentials| ==> KeepsRevoked(rec.credentials[k], rec'.credentials[k])
  }

  predicate KeepsRevoked(c: Credential, c': Credential) {
    c'.cert == c.cert && (c.revoked ==> c'.revoked)
  }

  lemma {:induction false} RenewKeeps(
      rec: Record, current: Certificate, id: string, csr: Csr, issued: Option<Chain>, logged: bool, at: Times)
    requires RecordOk(rec)
    ensures var tx := Renew(rec, current, id, csr, issued, logged, at);
            && RecordOk(tx.record) && Extends(rec, tx.record, at)
            && (tx.result.Ok? ==> exists k ::
                 0 <= k < |tx.record.renewals|
                   && Answers(tx.record.renewals[k], Reply(rec.agent, id, csr, tx.result.value)))
  {
    hide RecordOk, Sum, MayRenew, AcceptableIssue, Renewed;
    if at.first <= at.third { FewerActiveLater(rec.credentials, at.first, at.third); }
    var tx := Renew(rec, current, id, csr, issued, logged, at);
    var found := FindRenewal(rec.renewals, id);
    if found.Some? {
      assert tx.result.Ok? ==> Answers(rec.renewals[found.value], Reply(rec.agent, id, csr, tx.result.value));
    } else if tx.result.Ok? {
      var i := FindCert(rec.credentials, Sha256(current)).value;
      RenewedShape(rec, i, current, id, csr, issued.value, at.second);
      if at.second <= at.third { FewerActiveLater(tx.record.credentials, at.second, at.third); }
      RenewedRow(rec, i, current, id, csr, issued.value, at.second);
    }
  }

  lemma RenewedRow(rec: Record, i: nat, current: Certificate, id: string, csr: Csr, next: Chain, now: int)
    requires i < |rec.credentials|
    ensures var rec' := Renewed(rec, i, current, id, csr, next, now);
            && |rec'.renewals| == |rec.renewals| + 1
            && (forall k :: 0 <= k < |rec.renewals| ==> rec'.renewals[k] == rec.renewals[k])
            && rec'.renewals[|rec.renewals|].id == id && rec'.renewals[|rec.renewals|].csr == Sha256(csr)
            && Outlasts(rec, rec')
  {
    hide Cutoff, Latest;
  }

  lemma OnRecordStays(nodes: map<string, Record>, agent: string, rec': Record, at: Times, a: Reply)
    requires OnRecord(nodes, a) && (agent in nodes ==> Extends(nodes[agent], rec', at))
    ensures OnRecord(nodes[agent := rec'], a)
  {
    hide Answers, AtMostTwo, Outlasts;
    var k :| 0 <= k < |nodes[a.agent].renewals| && Answers(nodes[a.agent].renewals[k], a);
    assert nodes[agent := rec'][a.agent].renewals[k] == nodes[a.agent].renewals[k];
  }

  /** Every record of a world lives on in the next one. */
  ghost predicate AllOutlast(w: World, w': World) {
    forall agent :: agent in w.nodes ==> agent in w'.nodes && Outlasts(w.nodes[agent], w'.nodes[agent])
  }

  /** What one step does to one record. */
  lemma PutKeepsGood(w: World, w': World, agent: string, rec': Record, at: Times)
    requires Good(w) && w'.now == at.third && w'.nodes == w.nodes[agent := rec'] && RecordOk(rec')
    requires agent in w.nodes ==> Extends(w.nodes[agent], rec', at)
    requires agent !in w.nodes ==> AtMostTwo(rec', at.third)
    requires forall a :: a in w'.replies ==> a in w.replies || OnRecord(w'.nodes, a)
    ensures Good(w') && AllOutlast(w, w')
    ensures Limited(w) && Ordered(w.now, at) ==> Limited(w')
  {
    hide RecordOk, Sum, OnRecord, Outlasts;
    forall a | a in w'.replies ensures OnRecord(w'.nodes, a) {
      if a in w.replies { OnRecordStays(w.nodes, agent, rec', at, a); }
    }
    forall b | b in w.nodes ensures Outlasts(w.nodes[b], w'.nodes[b]) {
      if b != agent { SameOutlasts(w.nodes[b]); }
    }
    if Limited(w) && Ordered(w.now, at) {
      forall b | b in w'.nodes ensures AtMostTwo(w'.nodes[b], w'.now) {
        if b in w.nodes { FewerActiveLater(w.nodes[b].credentials, w.now, at.first); }
        if b != agent { FewerActiveLater(w.nodes[b].credentials, w.now, at.third); }
      }
    }
  }

  lemma SameOutlasts(rec: Record)
    ensures Outlasts(rec, rec)
  {
  }

  lemma IdleKeepsGood(w: World, w': World, at: Times)
    requires Good(w) && w'.now == at.third && w'.nodes == w.nodes && w'.replies == w.replies
    ensures Good(w') && AllOutlast(w, w') && (Limited(w) && Ordered(w.now, at) ==> Limited(w'))
  {
    hide RecordOk, Sum, OnRecord, Outlasts;
    forall b | b in w.nodes ensures Outlasts(w.nodes[b], w'.nodes[b]) { SameOutlasts(w.nodes[b]); }
    if Ordered(w.now, at) {
      forall b | b in w.nodes && AtMostTwo(w.nodes[b], w.now) ensures AtMostTwo(w.nodes[b], at.third) {
        FewerActiveLater(w.nodes[b].credentials, w.now, at.third);
      }
    }
  }

  lemma DisabledShape(rec: Record, at: Times)
    requires RecordOk(rec)
    ensures RecordOk(rec.(enabled := false)) && Extends(rec, rec.(enabled := false), at)
  {
    var rec' := rec.(enabled := false);
    forall k | 0 <= k < |rec.credentials| ensures ForNode(rec', rec'.credentials[k]) {
      assert ForNode(rec, rec.credentials[k]);
    }
    if at.first <= at.third { FewerActiveLater(rec.credentials, at.first, at.third); }
  }

  lemma RevokeExtends(rec: Record, cert: Fingerprint, logged: bool, at: Times)
    requires RecordOk(rec)
    ensures Extends(rec, Revoke(rec, cert, logged), at)
  {
    RevokedShape(rec, cert, logged);
    var rec' := Revoke(rec, cert, logged);
    if at.first <= at.third { FewerActiveLater(rec'.credentials, at.first, at.third); }
    hide RecordOk;
  }

  lemma ApplyKeepsGood(w: World, step: Step)
    requires Good(w)
    ensures Good(Apply(w, step)) && AllOutlast(w, Apply(w, step))
    ensures Limited(w) && Ordered(w.now, step.at) ==> Limited(Apply(w, step))
  {
    hide RecordOk, OnRecord, Renew, Revoke, Enrolled, Extends, Limited, AllOutlast, Logged, Noted;
    var w', at := Apply(w, step), step.at;
    if w'.nodes == w.nodes && w'.replies == w.replies {
      StepTime(w, step);
      IdleKeepsGood(w, w', at);
    } else {
      match step.op
      case Enroll(cert, metadata) =>
        EnrolledShape(cert, metadata, at.third);
        PutKeepsGood(w, w', cert.agent, Enrolled(cert, metadata, at.third), at);
      case Disable(agent) =>
        DisabledShape(w.nodes[agent], at);
        PutKeepsGood(w, w', agent, w.nodes[agent].(enabled := false), at);
      case RenewFor(current, id, csr, issued) => RenewForKeepsGood(w, at, current, id, csr, issued);
      case RevokeFor(agent, cert) =>
        var logged := Logged(w.audit, CertificateRevoked(agent), 0, at.stamp).Some?;
        RevokedShape(w.nodes[agent], cert, logged);
        RevokeExtends(w.nodes[agent], cert, logged, at);
        PutKeepsGood(w, w', agent, Revoke(w.nodes[agent], cert, logged), at);
      case Elsewhere(_) =>
    }
  }

  lemma StepTime(w: World, step: Step)
    ensures Apply(w, step).now == step.at.third
  {
    hide Renew, Revoke, Enrolled, Noted, Logged;
  }

  lemma RenewForKeepsGood(w: World, at: Times, current: Certificate, id: string, csr: Csr, issued: Option<Chain>)
    requires Good(w) && current.agent in w.nodes
    ensures var w' := Apply(w, Step(RenewFor(current, id, csr, issued), at));
            Good(w') && AllOutlast(w, w') && (Limited(w) && Ordered(w.now, at) ==> Limited(w'))
  {
    hide RecordOk, Renew, Extends, AtMostTwo, Limited, AllOutlast, Logged, Noted;
    var agent := current.agent;
    var logged := Logged(w.audit, CertificateRenewed(agent), 0, at.stamp).Some?;
    RenewKeeps(w.nodes[agent], current, id, csr, issued, logged, at);
    var tx := Renew(w.nodes[agent], current, id, csr, issued, logged, at);
    var w' := Apply(w, Step(RenewFor(current, id, csr, issued), at));
    if tx.result.Ok? {
      var k :| 0 <= k < |tx.record.renewals|
               && Answers(tx.record.renewals[k], Reply(w.nodes[agent].agent, id, csr, tx.result.value));
      assert w'.nodes[agent] == tx.record && Answers(tx.record.renewals[k], Reply(agent, id, csr, tx.result.value));
      assert OnRecord(w'.nodes, Reply(agent, id, csr, tx.result.value));
    }
    hide OnRecord;
    PutKeepsGood(w, w', agent, tx.record, at);
  }

  lemma {:induction false} RunIsGood(now: int, steps: seq<Step>)
    ensures Good(After(Start(now), steps))
  {
    hide Good, Apply;
    if steps == [] {
      StartIsGood(now);
    } else {
      var n := |steps| - 1;
      RunIsGood(now, steps[..n]);
      ApplyKeepsGood(After(Start(now), steps[..n]), steps[n]);
    }
  }

  lemma {:induction false} RunIsLimited(now: int, steps: seq<Step>)
    requires Nondecreasing(Start(now), steps)
    ensures Limited(After(Start(now), steps))
  {
    hide Good, Apply;
    if steps != [] {
      var n := |steps| - 1;
      RunIsLimited(now, steps[..n]);
      RunIsGood(now, steps[..n]);
      hide Limited;
      ApplyKeepsGood(After(Start(now), steps[..n]), steps[n]);
    }
  }

  lemma StartIsGood(now: int)
    ensures Good(Start(now))
  {
  }

  // ---- Theorems ----

  /** In every run a node's generations are contiguous from 1 and at most 64. */
  lemma GenerationsAreContiguous(now: int, steps: seq<Step>, agent: string, k: nat)
    requires agent in After(Start(now), steps).nodes && k < |After(Start(now), steps).nodes[agent].credentials|
    ensures After(Start(now), steps).nodes[agent].credentials[k].generation == k + 1 <= MAX_GENERATIONS
  {
    RunIsGood(now, steps);
    hide After, Start, OnRecord;
  }

  /** With a clock that never goes back, at most two credentials of a node are active. */
  lemma AtMostTwoActive(now: int, steps: seq<Step>, agent: string)
    requires Nondecreasing(Start(now), steps) && agent in After(Start(now), steps).nodes
    ensures var w := After(Start(now), steps); Sum(w.nodes[agent].credentials, ActiveAt(w.now)) <= 2
  {
    RunIsLimited(now, steps);
    hide After, Start, Nondecreasing;
  }

  lemma {:induction false} FoundAt(credentials: seq<Credential>, k: nat)
    requires DistinctCerts(credentials) && k < |credentials|
    ensures FindCert(credentials, credentials[k].cert) == Some(k)
  {
    hide FindCert;
  }

  lemma {:induction false} RetiredIsOut(rec: Record, k: nat, t: int)
    requires RecordOk(rec) && k + 1 < |rec.credentials| && Authorised(rec, CertAt(rec.credentials, k), t)
    ensures t < CutoffAt(rec.credentials, k)
  {
    hide FindCert, Contiguous, DistinctIds, MetadataOk;
    assert Superseded(rec.credentials, k) && ForNode(rec, rec.credentials[k]);
    FoundAt(rec.credentials, k);
    assert Sha256(CertAt(rec.credentials, k)) == rec.credentials[k].cert;
  }

  /** In every run, whatever the clock does, a superseded credential stops being authorised 24 hours after the issue
      of its successor, or when either certificate ends if that is sooner. */
  lemma SupersededStopsInADay(now: int, steps: seq<Step>, agent: string, k: nat, t: int)
    requires agent in After(Start(now), steps).nodes && k + 1 < |After(Start(now), steps).nodes[agent].credentials|
    requires var rec := After(Start(now), steps).nodes[agent]; Authorised(rec, CertAt(rec.credentials, k), t)
    ensures var credentials := After(Start(now), steps).nodes[agent].credentials;
            && t < credentials[k + 1].issuedAt + OVERLAP
            && t < CertAt(credentials, k).notAfter && t < CertAt(credentials, k + 1).notAfter
  {
    hide After, Start, OnRecord, RecordOk;
    RunIsGood(now, steps);
    RetiredIsOut(After(Start(now), steps).nodes[agent], k, t);
  }

  lemma {:induction false} OneAnswer(rec: Record, a: Reply, b: Reply, i: nat, j: nat)
    requires RecordOk(rec) && i < |rec.renewals| && j < |rec.renewals| && a.id == b.id
    requires Answers(rec.renewals[i], a) && Answers(rec.renewals[j], b)
    ensures a.csr == b.csr && a.response == b.response
  {
    hide ForNode, Superseded, Contiguous, DistinctCerts;
  }

  /** In every run a renewal ID is bound forever to one request and one response. */
  lemma {:induction false} RenewalIdsAreBound(now: int, steps: seq<Step>, a: Reply, b: Reply)
    requires a in After(Start(now), steps).replies && b in After(Start(now), steps).replies && a.agent == b.agent
             && a.id == b.id
    ensures a.csr == b.csr && a.response == b.response
  {
    RunIsGood(now, steps);
    hide After, Start, Answers, RecordOk;
    var w := After(Start(now), steps);
    assert OnRecord(w.nodes, a) && OnRecord(w.nodes, b);
    var rows := w.nodes[a.agent].renewals;
    var i :| 0 <= i < |rows| && Answers(rows[i], a);
    var j :| 0 <= j < |rows| && Answers(rows[j], b);
    OneAnswer(w.nodes[a.agent], a, b, i, j);
  }

  /** In every run, asking again with the ID, request and certificate of an answered renewal gives the same answer
      exactly while both certificates are authorised, and changes nothing. */
  lemma {:induction false} RetryIsAnswered(
      now: int, steps: seq<Step>, a: Reply, current: Certificate, issued: Option<Chain>, logged: bool, at: Times)
    requires a in After(Start(now), steps).replies && a.response.previous == Sha256(current)
    ensures a.agent in After(Start(now), steps).nodes
    ensures var rec := After(Start(now), steps).nodes[a.agent];
            var tx := Renew(rec, current, a.id, a.csr, issued, logged, at);
            && tx.record == rec
            && (tx.result.Ok? <==> Authorised(rec, current, at.first)
                                   && Authorised(rec, a.response.chain.certificate, at.second))
            && (tx.result.Ok? ==> tx.result.value == a.response)
  {
    RunIsGood(now, steps);
    hide After, Start, Authorised;
    var w := After(Start(now), steps);
    assert OnRecord(w.nodes, a);
    var rec := w.nodes[a.agent];
    var k :| 0 <= k < |rec.renewals| && Answers(rec.renewals[k], a);
    KnownRenewal(rec, k);
    assert Repeatable(rec, rec.renewals[k]);
  }

  lemma KnownRenewal(rec: Record, k: nat)
    requires RecordOk(rec) && k < |rec.renewals|
    ensures FindRenewal(rec.renewals, rec.renewals[k].id) == Some(k)
  {
    hide FindRenewal, Repeatable, ForNode, Superseded, Contiguous, DistinctCerts;
  }

  lemma OutlastsTransitive(a: Record, b: Record, c: Record)
    requires Outlasts(a, b) && Outlasts(b, c)
    ensures Outlasts(a, c)
  {
    forall k | 0 <= k < |a.credentials| ensures KeepsRevoked(a.credentials[k], c.credentials[k]) {
      assert KeepsRevoked(a.credentials[k], b.credentials[k]) && KeepsRevoked(b.credentials[k], c.credentials[k]);
    }
  }

  lemma {:induction false} RecordsOutlast(now: int, steps: seq<Step>, n: nat, agent: string)
    requires n <= |steps| && agent in After(Start(now), steps[..n]).nodes
    ensures agent in After(Start(now), steps).nodes
    ensures Outlasts(After(Start(now), steps[..n]).nodes[agent], After(Start(now), steps).nodes[agent])
  {
    hide Good, Apply, Outlasts;
    if n == |steps| {
      assert steps[..n] == steps;
      SameOutlasts(After(Start(now), steps).nodes[agent]);
    } else {
      var last := |steps| - 1;
      assert steps[..last][..n] == steps[..n];
      RecordsOutlast(now, steps[..last], n, agent);
      RunIsGood(now, steps[..last]);
      var w := After(Start(now), steps[..last]);
      ApplyKeepsGood(w, steps[last]);
      OutlastsTransitive(After(Start(now), steps[..n]).nodes[agent], w.nodes[agent],
          Apply(w, steps[last]).nodes[agent]);
    }
  }

  /** Once a certificate is revoked in a run, no later state of the run ever authorises it again, at any time. */
  lemma {:induction false} RevokedIsOut(now: int, steps: seq<Step>, n: nat, agent: string, k: nat, t: int)
    requires n <= |steps| && agent in After(Start(now), steps[..n]).nodes
    requires k < |After(Start(now), steps[..n]).nodes[agent].credentials|
    requires After(Start(now), steps[..n]).nodes[agent].credentials[k].revoked
    ensures agent in After(Start(now), steps).nodes
    ensures var cert := CertAt(After(Start(now), steps[..n]).nodes[agent].credentials, k);
            !Authorised(After(Start(now), steps).nodes[agent], cert, t)
  {
    hide After, Start, Good, RecordOk, FindCert;
    RecordsOutlast(now, steps, n, agent);
    RunIsGood(now, steps);
    var rec, rec' := After(Start(now), steps[..n]).nodes[agent], After(Start(now), steps).nodes[agent];
    assert KeepsRevoked(rec.credentials[k], rec'.credentials[k]);
    GoodCerts(After(Start(now), steps), agent);
    FoundAt(rec'.credentials, k);
  }

  lemma GoodCerts(w: World, agent: string)
    requires Good(w) && agent in w.nodes
    ensures DistinctCerts(w.nodes[agent].credentials)
  {
    hide ForNode, Superseded, OnRecord;
  }

  // ---- The store ----

  class CredentialStore {
    var nodes: map<string, Record>
    /** The audit log shared with the rest of the server. */
    var audit: Ledger<Event>

    constructor (audit: Ledger<Event>)
      ensures nodes == map[] && this.audit == audit
    {
      nodes := map[];
      this.audit := audit;
    }

    /** The credential part of RegisterFrom. */
    method Register(cert: Certificate, metadata: bool, now: int, stamp: int) returns (ok: bool)
      modifies this
      ensures ok <==> Enrollable(old(nodes), cert) && Logged(old(audit), OtherEvent, 1, stamp).Some?
      ensures nodes == if ok then old(nodes)[cert.agent := Enrolled(cert, metadata, now)] else old(nodes)
      ensures audit == if ok then Noted(old(audit), OtherEvent, 1, stamp) else old(audit)
    {
      hide Hex, Logged;
      var l := Logged(audit, OtherEvent, 1, stamp);
      if !Enrollable(nodes, cert) || l.None? {
        return false;
      }
      var c := Credential(Sha256(cert), 1, 0, 0, 0, false, now);
      if metadata {
        c := WithMetadata(c);
      }
      nodes := nodes[cert.agent := Record(cert.agent, cert.epoch, true, [c], [])];
      audit := l.value;
      return true;
    }

    /** The node is the one that the presented certificate names. */
    method RenewCertificate(current: Certificate, id: string, csr: Csr, issued: Option<Chain>, at: Times)
      returns (r: Result<Response, Error>)
      modifies this
      ensures current.agent !in old(nodes) ==> r.Err? && nodes == old(nodes) && audit == old(audit)
      ensures current.agent in old(nodes) ==>
                var rec, e := old(nodes)[current.agent], CertificateRenewed(current.agent);
                var tx := Renew(rec, current, id, csr, issued, Logged(old(audit), e, 0, at.stamp).Some?, at);
                && r == tx.result && nodes == old(nodes)[current.agent := tx.record]
                && audit == if |tx.record.renewals| > |rec.renewals| then Noted(old(audit), e, 0, at.stamp)
                     else old(audit)
    {
      hide Sum, Latest, MayRenew, AcceptableIssue, Authorised, Logged, Hex;
      if !Hex(id, 32) || |csr.raw| == 0 || |csr.raw| > MAX_CSR_BYTES {
        NodesStay(current.agent);
        return Err(Rejected);
      }
      if current.agent !in nodes {
        return Err(Unauthorised);
      }
      var rec := nodes[current.agent];
      NodesStay(current.agent);
      if !Authorised(rec, current, at.first) {
        return Err(Unauthorised);
      }
      AuthorisedIsKnown(rec, current, at.first);
      var known := FindRenewal(rec.renewals, id);
      if known.Some? {
        return Replay(rec, rec.renewals[known.value], current, csr, at.second);
      }
      var i := FindCert(rec.credentials, Sha256(current)).value;
      if !MayRenew(rec, i, at.second) {
        return Err(Rejected);
      }
      if issued.None? {
        return Err(IssuerFailed);
      }
      var next, now := issued.value.certificate, at.second;
      if !AcceptableIssue(rec, next, csr, now) || FindCert(rec.credentials, Sha256(next)).Some? {
        return Err(Rejected);
      }
      var latest := Latest(rec.credentials);
      var cutoff := now + OVERLAP;
      if current.notAfter < cutoff {
        cutoff := current.notAfter;
      }
      if next.notAfter < cutoff {
        cutoff := next.notAfter;
      }
      var tx := rec.(credentials := rec.credentials[i := WithMetadata(rec.credentials[i])]);
      var added := Credential(Sha256(next), latest + 1, 0, 0, 0, false, now);
      tx := tx.(credentials := tx.credentials + [WithMetadata(added)]);
      tx := tx.(credentials := tx.credentials[i := tx.credentials[i].(retireAt := cutoff)]);
      var response := Response(id, rec.agent, rec.epoch, latest + 1, Sha256(current), cutoff, issued.value);
      assert response == Answer(rec, current, id, issued.value, now);
      if !ResponseOk(response) {
        return Err(Rejected);
      }
      tx := tx.(renewals := tx.renewals + [Renewal(id, Sha256(current), Sha256(csr), Sha256(next), response)]);
      var l := Logged(audit, CertificateRenewed(current.agent), 0, at.stamp);
      if l.None? {
        return Err(NotLogged);
      }
      assert tx == Renewed(rec, i, current, id, csr, issued.value, now);
      if !Authorised(tx, current, at.third) {
        return Err(Unauthorised);
      }
      nodes, audit := nodes[current.agent := tx], l.value;
      return Ok(response);
    }

    lemma NodesStay(agent: string)
      ensures agent in nodes ==> nodes == nodes[agent := nodes[agent]]
    {
    }

    method RevokeCertificate(agent: string, cert: Fingerprint, stamp: int) returns (ok: bool)
      modifies this
      ensures ok <==>
                && agent in old(nodes) && FindCert(old(nodes)[agent].credentials, cert).Some?
                && Logged(old(audit), CertificateRevoked(agent), 0, stamp).Some?
      ensures nodes == if ok then old(nodes)[agent := Revoke(old(nodes)[agent], cert, true)] else old(nodes)
      ensures audit == if ok then Noted(old(audit), CertificateRevoked(agent), 0, stamp) else old(audit)
    {
      hide Logged;
      if agent !in nodes {
        return false;
      }
      var rec := nodes[agent];
      var i := FindCert(rec.credentials, cert);
      if i.None? {
        return false;
      }
      var l := Logged(audit, CertificateRevoked(agent), 0, stamp);
      if l.None? {
        return false;
      }
      var revoked := rec.credentials[i.value].(revoked := true);
      nodes := nodes[agent := rec.(credentials := rec.credentials[i.value := revoked])];
      audit := l.value;
      return true;
    }
  }

  lemma AuthorisedIsKnown(rec: Record, cert: Certificate, now: int)
    requires Authorised(rec, cert, now)
    ensures FindCert(rec.credentials, Sha256(cert)).Some?
  {
  }
}
