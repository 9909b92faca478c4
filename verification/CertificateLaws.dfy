/** When a certificate is authorised and what a renewal hands out, exactly and over every run
    (internal/state/certificates.go). */
module CertificateLaws {
  import opened Core
  import opened Tables
  import opened Text
  import opened Ledgers
  import opened Certificates

  /** The least of three times: a day after the issue of the successor, and the ends of both certificates. */
  predicate EndsAt(x: int, was: Certificate, next: Credential) {
    var day, own, other := next.issuedAt + 86400, was.notAfter, next.cert.preimage.notAfter;
    x <= day && x <= own && x <= other && (x == day || x == own || x == other)
  }

  /** The k-th credential of a node is this certificate, not revoked, inside its validity, and not yet past the end
      that a successor gives it. */
  predicate Entitled(rec: Record, k: nat, cert: Certificate, t: int) {
    && k < |rec.credentials| && rec.credentials[k].cert == Sha256(cert)
    && rec.enabled && !rec.credentials[k].revoked && cert.notBefore <= t < cert.notAfter
    && (k + 1 < |rec.credentials| ==>
          && t < rec.credentials[k + 1].issuedAt + 86400
          && t < rec.credentials[k + 1].cert.preimage.notAfter)
  }

  lemma {:induction false} EntitledIff(rec: Record, k: nat, cert: Certificate, t: int)
    requires RecordOk(rec) && k < |rec.credentials| && rec.credentials[k].cert == Sha256(cert)
    ensures Authorised(rec, cert, t) <==> Entitled(rec, k, cert, t)
  {
    hide FindCert, Contiguous, DistinctIds, Repeatable;
    FoundAt(rec.credentials, k);
    assert ForNode(rec, rec.credentials[k]);
    if k + 1 < |rec.credentials| { assert Superseded(rec.credentials, k); }
  }

  /** In every run, for any certificate and whatever the clock does: it is authorised if and only if it is one of the
      node's credentials, the node is enabled, it is not revoked, the time is inside its validity and, if it has a
      successor, less than 24 hours after the issue of that one and before that one ends. */
  lemma {:induction false} AuthorisedIff(now: int, steps: seq<Step>, agent: string, cert: Certificate, t: int)
    requires agent in After(Start(now), steps).nodes
    ensures var rec := After(Start(now), steps).nodes[agent];
            Authorised(rec, cert, t) <==> exists k: nat :: Entitled(rec, k, cert, t)
  {
    RunIsGood(now, steps);
    hide After, Start, OnRecord;
    var rec := After(Start(now), steps).nodes[agent];
    hide RecordOk, FindCert;
    if Authorised(rec, cert, t) {
      EntitledIff(rec, FindCert(rec.credentials, Sha256(cert)).value, cert, t);
    } else if k: nat :| Entitled(rec, k, cert, t) {
      EntitledIff(rec, k, cert, t);
    }
  }

  // ---- One renewal ----

  /** What a first request for a renewal has to meet. */
  predicate Renewable(
      rec: Record, current: Certificate, id: string, csr: Csr, issued: Option<Chain>, logged: bool, at: Times)
  {
    var n := |rec.credentials|;
    && Hex(id, 32) && Hex(rec.agent, 32) && Hex(rec.epoch, 32) && 1 <= |csr.raw| <= 2048 && 1 <= n < 64
    && Entitled(rec, n - 1, current, at.first) && Sum(rec.credentials, ActiveAt(at.second)) < 2
    && (n > 1 ==> at.second - rec.credentials[n - 1].issuedAt >= 3600)
    && issued.Some? && 1 <= issued.value.size <= 12000
    && (var next := issued.value.certificate;
        && next.agent == rec.agent && next.epoch == rec.epoch && next.publicKey == csr.publicKey
        && at.second + 60 < next.notAfter <= at.second + 30 * 86400 + 60
        && (forall k :: 0 <= k < n ==> rec.credentials[k].cert != Sha256(next))
        && 0 < at.second + 86400 && 0 < current.notAfter && 0 < next.notAfter
        && current.notBefore <= at.third < current.notAfter && at.third < at.second + 86400
        && at.third < next.notAfter)
    && logged
  }

  /** What that request leaves and answers: the newest credential ends at `x`, and one of the next generation
      follows it. */
  predicate Succeeded(
      rec: Record, rec': Record, r: Response, current: Certificate, id: string, csr: Csr, next: Chain, at: Times)
  {
    var n := |rec.credentials|;
    var cert := Sha256(next.certificate);
    && n >= 1 && |rec'.credentials| == n + 1
    && rec'.credentials[n] == Credential(cert, n + 1, next.certificate.notBefore, next.certificate.notAfter, 0, false,
                                         at.second)
    && EndsAt(r.previousValidUntil, current, rec'.credentials[n])
    && rec'.credentials[n - 1] == rec.credentials[n - 1].(notBefore := current.notBefore, notAfter := current.notAfter,
                                                          retireAt := r.previousValidUntil)
    && (forall k :: 0 <= k < n - 1 ==> rec'.credentials[k] == rec.credentials[k])
    && r == Response(id, rec.agent, rec.epoch, n + 1, Sha256(current), r.previousValidUntil, next)
    && rec' == rec.(credentials := rec'.credentials,
                    renewals := rec.renewals + [Renewal(id, Sha256(current), Sha256(csr), cert, r)])
  }

  lemma {:induction false} NewestIs(rec: Record, i: nat)
    requires RecordOk(rec) && i < |rec.credentials|
    ensures rec.credentials[i].generation == Latest(rec.credentials) <==> i == |rec.credentials| - 1
    ensures Latest(rec.credentials) == |rec.credentials|
  {
    hide Latest, ForNode, Superseded, Repeatable, DistinctCerts, DistinctIds;
    LatestIsCount(rec.credentials);
  }

  lemma {:induction false} RenewedIs(
      rec: Record, i: nat, current: Certificate, id: string, csr: Csr, next: Chain, logged: bool, at: Times)
    requires RecordOk(rec) && i == |rec.credentials| - 1 && rec.credentials[i].cert == Sha256(current)
    ensures var rec' := Renewed(rec, i, current, id, csr, next, at.second);
            Succeeded(rec, rec', Answer(rec, current, id, next, at.second), current, id, csr, next, at)
  {
    hide Latest, Superseded, Repeatable, DistinctCerts, DistinctIds, ForNode;
    LatestIsCount(rec.credentials);
  }

  /** Exactly when a first request for a renewal succeeds, and what it then leaves and answers. */
  lemma {:induction false} RenewIff(
      rec: Record, current: Certificate, id: string, csr: Csr, issued: Option<Chain>, logged: bool, at: Times)
    requires RecordOk(rec) && FindRenewal(rec.renewals, id).None?
    ensures var tx := Renew(rec, current, id, csr, issued, logged, at);
            && (tx.result.Ok? <==> Renewable(rec, current, id, csr, issued, logged, at))
            && (tx.result.Err? ==> tx.record == rec)
            && (tx.result.Ok? ==>
                  Succeeded(rec, tx.record, tx.result.value, current, id, csr, issued.value, at))
  {
    hide RecordOk, Latest, FindCert, Sum, Succeeded, Cutoff, FindRenewal, Hex;
    RecordIsNotEmpty(rec);
    var n := |rec.credentials|;
    match FindCert(rec.credentials, Sha256(current))
    case None => NotEntitled(rec, current, at.first);
    case Some(i) =>
      NewestIs(rec, i);
      EntitledIff(rec, i, current, at.first);
      if i == n - 1 && issued.Some? && FindCert(rec.credentials, Sha256(issued.value.certificate)).None?
         && MayRenew(rec, i, at.second) && AcceptableIssue(rec, issued.value.certificate, csr, at.second) {
        RenewedIs(rec, i, current, id, csr, issued.value, logged, at);
        StillAuthorised(rec, i, current, id, csr, issued.value, at);
      } else if i < n - 1 {
        OnlyOne(rec, i, n - 1);
      }
  }

  lemma RecordIsNotEmpty(rec: Record)
    requires RecordOk(rec)
    ensures 1 <= |rec.credentials| <= 64
  {
    hide ForNode, Superseded, Repeatable, DistinctCerts, DistinctIds;
  }

  lemma OnlyOne(rec: Record, i: nat, j: nat)
    requires RecordOk(rec) && i < j < |rec.credentials|
    ensures rec.credentials[i].cert != rec.credentials[j].cert
  {
    hide ForNode, Superseded, Repeatable, DistinctIds, Contiguous;
  }

  lemma NotEntitled(rec: Record, cert: Certificate, t: int)
    requires FindCert(rec.credentials, Sha256(cert)).None?
    ensures !Authorised(rec, cert, t) && forall k: nat :: !Entitled(rec, k, cert, t)
  {
    hide FindCert;
  }

  /** The last check of a renewal, made on the changed tables. */
  lemma {:induction false} StillAuthorised(
      rec: Record, i: nat, current: Certificate, id: string, csr: Csr, next: Chain, at: Times)
    requires RecordOk(rec) && i == |rec.credentials| - 1 && rec.credentials[i].cert == Sha256(current)
    requires MayRenew(rec, i, at.second) && AcceptableIssue(rec, next.certificate, csr, at.second)
    requires FindCert(rec.credentials, Sha256(next.certificate)).None?
    ensures ResponseOk(Answer(rec, current, id, next, at.second)) <==>
              && Hex(id, 32) && Hex(rec.agent, 32) && Hex(rec.epoch, 32) && 1 <= next.size <= 12000
              && 0 < at.second + 86400 && 0 < current.notAfter && 0 < next.certificate.notAfter
    ensures ResponseOk(Answer(rec, current, id, next, at.second)) ==>
              (Authorised(Renewed(rec, i, current, id, csr, next, at.second), current, at.third) <==>
                 && rec.enabled && !rec.credentials[i].revoked && current.notBefore <= at.third < current.notAfter
                 && at.third < at.second + 86400 && at.third < next.certificate.notAfter)
  {
    hide Latest, FindCert, Sum, Superseded, Repeatable, DistinctCerts, DistinctIds, Hex;
    LatestIsCount(rec.credentials);
    var rec' := Renewed(rec, i, current, id, csr, next, at.second);
    assert ForNode(rec, rec.credentials[i]);
    StillFound(rec, i, current, id, csr, next, at.second);
  }

  lemma {:induction false} StillFound(
      rec: Record, i: nat, current: Certificate, id: string, csr: Csr, next: Chain, now: int)
    requires DistinctCerts(rec.credentials) && i == |rec.credentials| - 1 && rec.credentials[i].cert == Sha256(current)
             && FindCert(rec.credentials, Sha256(next.certificate)).None?
    ensures FindCert(Renewed(rec, i, current, id, csr, next, now).credentials, Sha256(current)) == Some(i)
  {
    hide FindCert, Cutoff, Latest;
    var creds := Renewed(rec, i, current, id, csr, next, now).credentials;
    forall j, k | 0 <= j < k < |creds| ensures creds[j].cert != creds[k].cert {
      assert creds[j].cert == rec.credentials[j].cert;
    }
    FoundAt(creds, i);
  }

  // ---- Every answer ever given ----

  /** The k-th answer names the generation, the certificates and the end that the credential tables hold. */
  predicate Matches(rec: Record, k: nat) {
    && k < |rec.renewals| && k + 1 < |rec.credentials|
    && (var r, was, next := rec.renewals[k].response, rec.credentials[k], rec.credentials[k + 1];
        && r.generation == k + 2 == next.generation && r.previous == was.cert && Sha256(r.chain.certificate) == next.cert
        && EndsAt(r.previousValidUntil, was.cert.preimage, next) && was.retireAt == r.previousValidUntil)
  }

  predicate Linked(rec: Record) {
    |rec.renewals| + 1 == |rec.credentials| && forall k: nat :: k < |rec.renewals| ==> Matches(rec, k)
  }

  ghost predicate AllLinked(w: World) {
    forall agent :: agent in w.nodes ==> Linked(w.nodes[agent])
  }

  lemma SucceededLinks(
      rec: Record, rec': Record, r: Response, current: Certificate, id: string, csr: Csr, next: Chain, at: Times)
    requires Linked(rec) && Succeeded(rec, rec', r, current, id, csr, next, at)
             && rec.credentials[|rec.credentials| - 1].cert == Sha256(current)
    ensures Linked(rec')
  {
    forall k: nat | k < |rec'.renewals| ensures Matches(rec', k) {
      if k < |rec.renewals| { assert Matches(rec, k); }
    }
  }

  lemma RenewLinks(
      rec: Record, current: Certificate, id: string, csr: Csr, issued: Option<Chain>, logged: bool, at: Times)
    requires RecordOk(rec) && Linked(rec)
    ensures Linked(Renew(rec, current, id, csr, issued, logged, at).record)
  {
    hide RecordOk, Linked, Renewed, Succeeded, Hex;
    if FindRenewal(rec.renewals, id).None? {
      RenewIff(rec, current, id, csr, issued, logged, at);
      var tx := Renew(rec, current, id, csr, issued, logged, at);
      if tx.result.Ok? {
        SucceededLinks(rec, tx.record, tx.result.value, current, id, csr, issued.value, at);
      }
    }
  }

  lemma RevokeLinks(rec: Record, cert: Fingerprint, logged: bool)
    requires Linked(rec)
    ensures Linked(Revoke(rec, cert, logged))
  {
    hide FindCert;
    var rec' := Revoke(rec, cert, logged);
    forall k: nat | k < |rec'.renewals| ensures Matches(rec', k) {
      assert Matches(rec, k);
    }
  }

  lemma DisableLinks(rec: Record)
    requires Linked(rec)
    ensures Linked(rec.(enabled := false))
  {
    var rec' := rec.(enabled := false);
    forall k: nat | k < |rec'.renewals| ensures Matches(rec', k) {
      assert Matches(rec, k);
    }
  }

  lemma ApplyKeepsLinked(w: World, step: Step)
    requires Good(w) && AllLinked(w)
    ensures AllLinked(Apply(w, step))
  {
    hide RecordOk, OnRecord, Linked, Renew, Revoke, Noted, Logged, Enrollable, FindCert;
    match step.op
    case Enroll(cert, metadata) => EnrolledLinks(cert, metadata, step.at.third);
    case Disable(agent) => if agent in w.nodes { DisableLinks(w.nodes[agent]); }
    case RenewFor(current, id, csr, issued) =>
      if current.agent in w.nodes {
        RenewLinks(w.nodes[current.agent], current, id, csr, issued,
            Logged(w.audit, CertificateRenewed(current.agent), 0, step.at.stamp).Some?, step.at);
      }
    case RevokeFor(agent, cert) =>
      if agent in w.nodes {
        RevokeLinks(w.nodes[agent], cert, Logged(w.audit, CertificateRevoked(agent), 0, step.at.stamp).Some?);
      }
    case Elsewhere(_) =>
  }

  lemma EnrolledLinks(cert: Certificate, metadata: bool, now: int)
    ensures Linked(Enrolled(cert, metadata, now))
  {
  }

  lemma {:induction false} RunIsLinked(now: int, steps: seq<Step>)
    ensures AllLinked(After(Start(now), steps))
  {
    hide Good, Apply, AllLinked;
    if steps == [] {
      NothingLinked(now);
    } else {
      var n := |steps| - 1;
      RunIsLinked(now, steps[..n]);
      RunIsGood(now, steps[..n]);
      ApplyKeepsLinked(After(Start(now), steps[..n]), steps[n]);
    }
  }

  lemma NothingLinked(now: int)
    ensures AllLinked(Start(now))
  {
  }

  /** In every run, each answer ever given to a renewal names the generation it created and, as the end of the
      previous certificate, the very time from which that one is no longer authorised: 24 hours after the issue, or the
      end of either certificate if that is sooner. */
  lemma {:induction false} AnswersAreExact(now: int, steps: seq<Step>, a: Reply, t: int)
    requires a in After(Start(now), steps).replies
    ensures a.agent in After(Start(now), steps).nodes
    ensures var rec := After(Start(now), steps).nodes[a.agent];
            var k := a.response.generation - 2;
            && 0 <= k && Matches(rec, k) && rec.renewals[k].response == a.response && rec.renewals[k].id == a.id
            && (Authorised(rec, rec.credentials[k].cert.preimage, t) ==> t < a.response.previousValidUntil)
            && (rec.enabled && !rec.credentials[k].revoked ==>
                  (Authorised(rec, rec.credentials[k].cert.preimage, t) <==>
                     rec.credentials[k].cert.preimage.notBefore <= t < a.response.previousValidUntil))
  {
    RunIsGood(now, steps);
    RunIsLinked(now, steps);
    hide After, Start;
    var w := After(Start(now), steps);
    assert OnRecord(w.nodes, a);
    var rec := w.nodes[a.agent];
    assert Linked(rec);
    hide RecordOk;
    var j :| 0 <= j < |rec.renewals| && Answers(rec.renewals[j], a);
    assert Matches(rec, j);
    EntitledIff(rec, j, rec.credentials[j].cert.preimage, t);
  }

  // ---- Revocation ----

  /** Revoking a known certificate takes its authority away at every time, and no other certificate's; it happens if
      and only if the event can be logged. */
  lemma {:induction false} RevocationEffect(
      now: int, steps: seq<Step>, agent: string, cert: Certificate, at: Times, other: Certificate, t: int)
    requires var w := After(Start(now), steps);
             agent in w.nodes && FindCert(w.nodes[agent].credentials, Sha256(cert)).Some?
    ensures var w := After(Start(now), steps);
            var w' := Apply(w, Step(RevokeFor(agent, Sha256(cert)), at));
            var room := at.stamp > 0 && w.audit.reserved >= 0 && |w.audit.events| + w.audit.reserved < CAPACITY;
            && agent in w'.nodes
            && (if room then !Authorised(w'.nodes[agent], cert, t)
                               && w'.audit.events == w.audit.events + [CertificateRevoked(agent)]
                else w'.nodes == w.nodes && w'.audit == w.audit)
            && (other != cert ==> (Authorised(w'.nodes[agent], other, t) <==> Authorised(w.nodes[agent], other, t)))
            && (forall b :: b in w.nodes && b != agent ==> b in w'.nodes && w'.nodes[b] == w.nodes[b])
  {
    RunIsGood(now, steps);
    var w := After(Start(now), steps);
    hide After, Start, OnRecord;
    var rec := w.nodes[agent];
    var i := FindCert(rec.credentials, Sha256(cert)).value;
    var rec' := rec.(credentials := rec.credentials[i := rec.credentials[i].(revoked := true)]);
    SameCerts(rec, rec', cert);
    SameCerts(rec, rec', other);
    hide RecordOk, FindCert;
    assert w.nodes == w.nodes[agent := rec];
  }

  lemma {:induction false} SameCerts(rec: Record, rec': Record, cert: Certificate)
    requires DistinctCerts(rec.credentials) && |rec'.credentials| == |rec.credentials|
    requires forall k :: 0 <= k < |rec.credentials| ==> rec'.credentials[k].cert == rec.credentials[k].cert
    ensures FindCert(rec'.credentials, Sha256(cert)) == FindCert(rec.credentials, Sha256(cert))
  {
    hide FindCert;
    match FindCert(rec.credentials, Sha256(cert))
    case None =>
    case Some(k) => FoundAt(rec'.credentials, k);
  }

  // ---- The first certificate, and the end of a node ----

  /** Exactly when a node is enrolled; it then starts with that certificate alone, which authorises it from then on just
      within its own validity, and nothing else changes. */
  lemma EnrolmentEffect(now: int, steps: seq<Step>, cert: Certificate, metadata: bool, at: Times, t: int)
    ensures var w := After(Start(now), steps);
            var w' := Apply(w, Step(Enroll(cert, metadata), at));
            var fits := && Hex(cert.agent, 32) && Hex(cert.epoch, 32) && cert.agent !in w.nodes && at.stamp > 0
                        && w.audit.reserved >= -1 && |w.audit.events| + w.audit.reserved + 2 <= CAPACITY;
            if !fits then w'.nodes == w.nodes && w'.audit == w.audit
            else
              && cert.agent in w'.nodes && w'.nodes == w.nodes[cert.agent := w'.nodes[cert.agent]]
              && w'.audit == Ledger(w.audit.events + [OtherEvent], w.audit.reserved + 1)
              && w'.nodes[cert.agent] == Record(cert.agent, cert.epoch, true,
                     [Credential(Sha256(cert), 1, if metadata then cert.notBefore else 0,
                                 if metadata then cert.notAfter else 0, 0, false, at.third)], [])
              && (Authorised(w'.nodes[cert.agent], cert, t) <==> cert.notBefore <= t < cert.notAfter)
  {
    hide After, Start, Hex;
    var w := After(Start(now), steps);
    var w' := Apply(w, Step(Enroll(cert, metadata), at));
    if cert.agent !in w.nodes && cert.agent in w'.nodes {
      FoundAt(w'.nodes[cert.agent].credentials, 0);
    }
  }

  predicate IsOut(w: World, agent: string) {
    agent in w.nodes && !w.nodes[agent].enabled
  }

  lemma StaysOut(w: World, step: Step, agent: string)
    requires IsOut(w, agent)
    ensures IsOut(Apply(w, step), agent)
  {
    hide MayRenew, AcceptableIssue, ResponseOk, Answer, FindCert, FindRenewal, Hex, Logged, Enrolled, Renew;
    if step.op.RenewFor? && step.op.current.agent == agent {
      hide Authorised, Replay;
      RenewKeepsDisabled(w.nodes[agent], step.op.current, step.op.id, step.op.csr, step.op.issued,
                         Logged(w.audit, CertificateRenewed(agent), 0, step.at.stamp).Some?, step.at);
    }
  }

  lemma RenewKeepsDisabled(
      rec: Record, current: Certificate, id: string, csr: Csr, issued: Option<Chain>, logged: bool, at: Times)
    ensures Renew(rec, current, id, csr, issued, logged, at).record.enabled == rec.enabled
  {
    hide MayRenew, AcceptableIssue, ResponseOk, Answer, FindRenewal, Hex, Authorised, Replay;
    AuthorisedIsFound(rec, current, at.first);
  }

  lemma AuthorisedIsFound(rec: Record, cert: Certificate, t: int)
    ensures Authorised(rec, cert, t) ==> FindCert(rec.credentials, Sha256(cert)).Some?
  {
  }

  /** Once a node is disabled in a run, no certificate ever authorises it again, at any time. */
  lemma {:induction false} DisabledIsOut(w: World, agent: string, at: Times, more: seq<Step>, cert: Certificate, t: int)
    requires agent in w.nodes
    ensures var w' := After(Apply(w, Step(Disable(agent), at)), more);
            agent in w'.nodes && !Authorised(w'.nodes[agent], cert, t)
  {
    OutForever(Apply(w, Step(Disable(agent), at)), agent, more);
    hide After, Apply, FindCert;
  }

  lemma {:induction false} OutForever(w: World, agent: string, more: seq<Step>)
    requires IsOut(w, agent)
    ensures IsOut(After(w, more), agent)
  {
    hide Apply;
    if more != [] {
      OutForever(w, agent, more[..|more| - 1]);
      StaysOut(After(w, more[..|more| - 1]), more[|more| - 1], agent);
    }
  }
}
