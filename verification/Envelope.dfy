/** Signed task envelopes (internal/signing/signing.go, internal/signing/envelope_v2.go). */
module Envelope {
  import opened Core
  import opened Protocol
  import opened Trust

  /** What a signature covers: the payload alone, or the trust set and key IDs with the payload. */
  datatype Message = PayloadOnly(payload: Payload) | Keyed(trustId: string, keyId: KeyId, payload: Payload)

  /** A signature verifies under a key exactly when that key's holder signed that message. */
  datatype Signature = Signed(signer: PublicKey, message: Message) | Forged(bytes: string)

  predicate Verifies(key: PublicKey, m: Message, s: Signature) {
    s == Signed(key, m)
  }

  datatype Envelope =
    | Legacy(payload: Payload, signature: Signature)
    | Versioned(version: int, trustId: string, keyId: KeyId, payload: Payload, signature: Signature)
    | Unparsed(bytes: string)

  datatype Verified = Verified(task: Task, payload: Payload, keyId: KeyId)

  /** signing.Sign; the private key is named by its public key. */
  function Sign(payload: Payload, signer: PublicKey): Option<Envelope> {
    if DecodeTask(payload).None? then None else Some(Legacy(payload, Signed(signer, PayloadOnly(payload))))
  }

  /** signing.VerifyPayload. */
  function VerifyPayload(e: Envelope, key: PublicKey): (r: Option<Task>)
    ensures r.Some? ==> e.Legacy? && DecodeTask(e.payload) == r
  {
    if e.Legacy? && Verifies(key, PayloadOnly(e.payload), e.signature) then DecodeTask(e.payload) else None
  }

  /** SignTrusted. */
  function SignTrusted(payload: Payload, signer: PublicKey, trust: TrustSet, now: int64): Option<Envelope> {
    if !Valid(trust) || DecodeTask(payload).None?
       || !CheckTask(trust, DecodeTask(payload).value, Sha256(signer), now) then None
    else Some(Versioned(2, trust.id, Sha256(signer), payload, Signed(signer, Keyed(trust.id, Sha256(signer), payload))))
  }

  /** The first key of a set that accepts legacy envelopes. */
  function LegacyKey(keys: seq<TrustKey>): (r: Option<TrustKey>)
    ensures r.Some? ==> r.value in keys && r.value.legacy
  {
    if keys == [] then None else if keys[0].legacy then Some(keys[0]) else LegacyKey(keys[1..])
  }

  /** VerifyTrusted. */
  function VerifyTrusted(e: Envelope, trust: TrustSet, now: int64): (r: Option<Verified>)
    ensures r.Some? ==> !e.Unparsed? && r.value.payload == e.payload && DecodeTask(e.payload) == Some(r.value.task)
    ensures r.Some? ==> CheckTask(trust, r.value.task, r.value.keyId, now)
  {
    if !Valid(trust) then None
    else if !e.Versioned? then
      match LegacyKey(trust.keys)
      case None => None
      case Some(k) =>
        if !GoodKey(k) then None
        else
          match VerifyPayload(e, k.public.key)
          case None => None
          case Some(t) => if CheckTask(trust, t, k.id, now) then Some(Verified(t, e.payload, k.id)) else None
    else if e.version != 2 || e.trustId != trust.id then None
    else
      match Key(trust.keys, e.keyId)
      case None => None
      case Some(k) =>
        if !GoodKey(k) || !Verifies(k.public.key, Keyed(e.trustId, e.keyId, e.payload), e.signature) then None
        else
          match DecodeTask(e.payload)
          case None => None
          case Some(t) => if CheckTask(trust, t, e.keyId, now) then Some(Verified(t, e.payload, e.keyId)) else None
  }

  /** An envelope that verifies once keeps verifying until its task expires. */
  lemma VerifiedUntilExpiry(e: Envelope, trust: TrustSet, now: int64, later: int64)
    requires VerifyTrusted(e, trust, now).Some? && now <= later < VerifyTrusted(e, trust, now).value.task.expiresAt
    ensures VerifyTrusted(e, trust, later) == VerifyTrusted(e, trust, now)
  {
    hide Valid, GoodKey, Key, LegacyKey;
  }

  /** What SignTrusted signs, VerifyTrusted accepts, from the time of signing until the task expires. */
  lemma SignedVerifies(payload: Payload, signer: PublicKey, trust: TrustSet, now: int64, later: int64)
    requires SignTrusted(payload, signer, trust, now).Some?
    requires now <= later < DecodeTask(payload).value.expiresAt
    ensures VerifyTrusted(SignTrusted(payload, signer, trust, now).value, trust, later)
            == Some(Verified(DecodeTask(payload).value, payload, Sha256(signer)))
  {
    hide LegacyKey;
    var k := Key(trust.keys, Sha256(signer)).value;
    var i :| 0 <= i < |trust.keys| && trust.keys[i] == k;
    assert GoodWindow(trust.keys[i]);
  }

  /** The unversioned round trip. */
  lemma LegacySignedVerifies(payload: Payload, signer: PublicKey, key: PublicKey)
    requires Sign(payload, signer).Some?
    ensures VerifyPayload(Sign(payload, signer).value, key).Some? <==> key == signer
  {
  }

  lemma LegacyKeyHeld(s: TrustSet)
    requires Valid(s) && LegacyKey(s.keys).Some?
    ensures var k := LegacyKey(s.keys).value; GoodKey(k) && k.id in Ids(s.keys) && Key(s.keys, k.id) == Some(k)
  {
    var k := LegacyKey(s.keys).value;
    var i :| 0 <= i < |s.keys| && s.keys[i] == k;
    assert GoodWindow(s.keys[i]);
    ValidIdsDistinct(s);
    KeyAt(s.keys, i);
    assert Ids(s.keys)[i] == k.id;
  }

  lemma {:induction false} LegacyKeyFound(keys: seq<TrustKey>, i: nat)
    requires i < |keys| && keys[i].legacy && forall j :: 0 <= j < |keys| && keys[j].legacy ==> keys[j] == keys[i]
    ensures LegacyKey(keys) == Some(keys[i])
  {
    if !keys[0].legacy { LegacyKeyFound(keys[1..], i - 1); }
  }

  lemma UniqueLegacy(s: TrustSet, id: KeyId)
    requires Valid(s) && id in Ids(s.keys) && Key(s.keys, id).value.legacy
    ensures LegacyKey(s.keys) == Key(s.keys, id)
  {
    var k := Key(s.keys, id).value;
    var i :| 0 <= i < |s.keys| && s.keys[i] == k;
    LegacyKeyFound(s.keys, i);
  }

  lemma CheckTaskShrinks(previous: TrustSet, next: TrustSet, t: Task, id: KeyId, now: int64)
    requires Keeps(previous, next) && id in Ids(previous.keys) && CheckTask(next, t, id, now)
    ensures CheckTask(previous, t, id, now)
    ensures NoMoreAuthority(Key(previous.keys, id).value, Key(next.keys, id).value)
  {
    hide Key;
    assert Key(next.keys, id).Some?;
  }

  /** A transition never lets an existing key authorise more: an envelope that verifies under the
      next set with a key the previous set held, verifies under the previous set as well. */
  lemma TransitionAddsNoAuthority(previous: TrustSet, next: TrustSet, e: Envelope, now: int64)
    requires LaterStep(previous, next) && VerifyTrusted(e, next, now).Some?
    requires VerifyTrusted(e, next, now).value.keyId in Ids(previous.keys)
    ensures VerifyTrusted(e, previous, now) == VerifyTrusted(e, next, now)
  {
    var v := VerifyTrusted(e, next, now).value;
    StepKeeps(previous, next);
    CheckTaskShrinks(previous, next, v.task, v.keyId, now);
    var was, k := Key(previous.keys, v.keyId).value, Key(next.keys, v.keyId).value;
    assert was.public == k.public && was.id == k.id && was.legacy == k.legacy;
    if !e.Versioned? {
      LegacyKeyHeld(next);
      UniqueLegacy(previous, v.keyId);
    }
    hide Valid, KeptKeysBounded, NewKeysNotLegacy, Departed, Key, LegacyKey, Keeps;
  }

  // ---- What verifies, exactly ----

  /** The holder of this key signed this valid task, for this set unless the key takes envelopes without a version; the
      window of the key is open and holds the whole task. */
  predicate SignedUnder(e: Envelope, trust: TrustSet, k: TrustKey, now: int64) {
    && !e.Unparsed? && e.payload.TaskText? && ValidTask(e.payload.task) && k.public.Encoded?
    && (match e
        case Versioned(version, trustId, keyId, payload, signature) =>
          version == 2 && trustId == trust.id && keyId == k.id
          && signature == Signed(k.public.key, Keyed(trust.id, k.id, payload))
        case Legacy(payload, signature) => k.legacy && signature == Signed(k.public.key, PayloadOnly(payload))
        case Unparsed(_) => false)
    && k.notBefore <= now < k.notAfter && k.notBefore <= e.payload.task.createdAt
    && e.payload.task.expiresAt <= k.notAfter
  }

  /** An envelope verifies under a valid set exactly if one of its keys signed it so; the answer names that key and
      the task that was signed. */
  lemma VerifiesIff(e: Envelope, trust: TrustSet, now: int64)
    requires Valid(trust)
    ensures VerifyTrusted(e, trust, now).Some? <==>
              exists i :: 0 <= i < |trust.keys| && SignedUnder(e, trust, trust.keys[i], now)
    ensures forall i :: 0 <= i < |trust.keys| && SignedUnder(e, trust, trust.keys[i], now) ==>
              VerifyTrusted(e, trust, now) == Some(Verified(e.payload.task, e.payload, trust.keys[i].id))
  {
    forall i | 0 <= i < |trust.keys| && SignedUnder(e, trust, trust.keys[i], now)
      ensures VerifyTrusted(e, trust, now) == Some(Verified(e.payload.task, e.payload, trust.keys[i].id))
    {
      SignedUnderVerifies(e, trust, i, now);
    }
    hide Valid, ValidTask;
    match VerifyTrusted(e, trust, now)
    case None =>
    case Some(v) => VerifiedIsSigned(e, trust, now);
  }

  lemma SignedUnderVerifies(e: Envelope, trust: TrustSet, i: nat, now: int64)
    requires Valid(trust) && i < |trust.keys| && SignedUnder(e, trust, trust.keys[i], now)
    ensures VerifyTrusted(e, trust, now) == Some(Verified(e.payload.task, e.payload, trust.keys[i].id))
  {
    assert GoodWindow(trust.keys[i]);
    ValidIdsDistinct(trust);
    KeyAt(trust.keys, i);
    assert Ids(trust.keys)[i] == trust.keys[i].id;
    if !e.Versioned? { UniqueLegacy(trust, trust.keys[i].id); }
    hide Valid, ValidTask, Key, LegacyKey, Ids;
  }

  lemma VerifiedIsSigned(e: Envelope, trust: TrustSet, now: int64)
    requires Valid(trust) && VerifyTrusted(e, trust, now).Some?
    ensures exists i :: 0 <= i < |trust.keys| && SignedUnder(e, trust, trust.keys[i], now)
  {
    var v := VerifyTrusted(e, trust, now).value;
    if !e.Versioned? { LegacyKeyHeld(trust); }
    hide Valid, ValidTask, LegacyKey;
    var k := Key(trust.keys, v.keyId).value;
    var i :| 0 <= i < |trust.keys| && trust.keys[i] == k;
    hide Key;
    assert SignedUnder(e, trust, trust.keys[i], now);
  }

  /** The key an envelope is checked against. */
  function EnvelopeKey(e: Envelope, trust: TrustSet): Option<TrustKey> {
    if e.Versioned? then Key(trust.keys, e.keyId) else LegacyKey(trust.keys)
  }

  /** An envelope that verifies once verifies later exactly while the window of its key is open, which
      lasts at least until its task expires. */
  lemma VerifiesWhileWindowOpen(e: Envelope, trust: TrustSet, now: int64, later: int64)
    requires VerifyTrusted(e, trust, now).Some? && now <= later
    ensures EnvelopeKey(e, trust).Some?
    ensures VerifyTrusted(e, trust, later).Some? <==> later < EnvelopeKey(e, trust).value.notAfter
    ensures VerifyTrusted(e, trust, now).value.task.expiresAt <= EnvelopeKey(e, trust).value.notAfter
    ensures VerifyTrusted(e, trust, later).Some? ==> VerifyTrusted(e, trust, later) == VerifyTrusted(e, trust, now)
  {
    hide Valid, GoodKey, Key, LegacyKey;
    if !e.Versioned? { LegacyKeyHeld(trust); }
  }
}
