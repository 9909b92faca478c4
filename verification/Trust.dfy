/** Signer trust sets and the transitions between them (internal/signing/trust.go). */
module Trust {
  import opened Core
  import opened Tables
  import opened Protocol

  const MAX_RETIRED_KEYS := 64
  const MAX_GENERATION := 2 * MAX_RETIRED_KEYS + 1
  const MAX_OVERLAP := 86400
  const KEY_SIZE := 32

  /** Raw Ed25519 public key bytes; a key ID is the SHA-256 of them. */
  type PublicKey = string
  type KeyId = Sha256<PublicKey>

  /** The base64url field of a key: canonical text of some bytes, or anything else. */
  datatype KeyText = Encoded(key: PublicKey) | Malformed(text: string)

  datatype TrustKey = TrustKey(id: KeyId, public: KeyText, notBefore: int, notAfter: int, legacy: bool)

  datatype TrustSet = TrustSet(version: int, id: string, generation: int, keys: seq<TrustKey>, retired: seq<KeyId>)

  function NewTrustKey(key: PublicKey, start: int, end: int, legacy: bool): TrustKey {
    TrustKey(Sha256(key), Encoded(key), start, end, legacy)
  }

  /** TrustKey.PublicKey succeeds. */
  predicate GoodKey(k: TrustKey) {
    k.public.Encoded? && |k.public.key| == KEY_SIZE && Sha256(k.public.key) == k.id
  }

  predicate GoodWindow(k: TrustKey) {
    GoodKey(k) && 0 < k.notBefore < k.notAfter
  }

  function Ids(keys: seq<TrustKey>): (ids: seq<KeyId>)
    ensures |ids| == |keys| && forall i :: 0 <= i < |keys| ==> ids[i] == keys[i].id
  {
    seq(|keys|, i requires 0 <= i < |keys| => keys[i].id)
  }

  predicate Overlapping(a: TrustKey, b: TrustKey) {
    var start, end := Max(a.notBefore, b.notBefore), Min(a.notAfter, b.notAfter);
    start < end && end - start <= MAX_OVERLAP
  }

  /** TrustSet.Validate. */
  predicate Valid(s: TrustSet) {
    && s.version == 1 && Hex(s.id, 32) && 1 <= s.generation <= MAX_GENERATION
    && 1 <= |s.keys| <= 2 && |s.retired| <= MAX_RETIRED_KEYS
    && Distinct(s.retired + Ids(s.keys))
    && (forall i :: 0 <= i < |s.keys| ==> GoodWindow(s.keys[i]))
    && (|s.keys| == 2 ==> !(s.keys[0].legacy && s.keys[1].legacy) && Overlapping(s.keys[0], s.keys[1]))
  }

  /** Equal canonical documents: Canonical sorts keys and retired IDs before encoding. */
  predicate SameTrust(a: TrustSet, b: TrustSet) {
    a.version == b.version && a.id == b.id && a.generation == b.generation
    && multiset(a.keys) == multiset(b.keys) && multiset(a.retired) == multiset(b.retired)
  }

  /** TrustSet.Key: the first key with this ID. */
  function Key(keys: seq<TrustKey>, id: KeyId): (r: Option<TrustKey>)
    ensures r.Some? <==> id in Ids(keys)
    ensures r.Some? ==> r.value in keys && r.value.id == id
  {
    if keys == [] then None
    else if keys[0].id == id then
      assert Ids(keys)[0] == id;
      Some(keys[0])
    else
      assert forall i :: 1 <= i < |keys| ==> keys[i] == keys[1..][i - 1];
      assert Ids(keys) == [keys[0].id] + Ids(keys[1..]);
      Key(keys[1..], id)
  }

  /** TrustSet.CheckTask. */
  predicate CheckTask(s: TrustSet, t: Task, id: KeyId, now: int64) {
    match Key(s.keys, id)
    case None => false
    case Some(k) => k.notBefore <= now < k.notAfter && k.notBefore <= t.createdAt && t.expiresAt <= k.notAfter
  }

  /** IDs of the keys of `before` that `after` no longer holds, in order. */
  function Departed(before: seq<TrustKey>, after: seq<TrustKey>): (ids: seq<KeyId>)
    ensures forall id :: id in ids <==> id in Ids(before) && id !in Ids(after)
  {
    if before == [] then []
    else
      var rest := Departed(before[..|before| - 1], after);
      var last := before[|before| - 1];
      assert Ids(before) == Ids(before[..|before| - 1]) + [last.id];
      if last.id in Ids(after) then rest else rest + [last.id]
  }

  /** A key kept by a transition keeps its bytes, start and legacy flag, and never gains time. */
  predicate NoMoreAuthority(was: TrustKey, k: TrustKey) {
    k.public == was.public && k.notBefore == was.notBefore && k.notAfter <= was.notAfter && k.legacy == was.legacy
  }

  predicate KeptKeysBounded(before: seq<TrustKey>, after: seq<TrustKey>) {
    forall i ::
      0 <= i < |before| && before[i].id in Ids(after) ==> NoMoreAuthority(before[i], Key(after, before[i].id).value)
  }

  predicate NewKeysNotLegacy(before: seq<TrustKey>, after: seq<TrustKey>) {
    forall i :: 0 <= i < |after| && after[i].id !in Ids(before) ==> !after[i].legacy
  }

  predicate InitialMigration(legacy: KeyId, next: TrustSet) {
    && Valid(next) && legacy in Ids(next.keys) && Key(next.keys, legacy).value.legacy
    && next.generation == 1 && next.retired == [] && |next.keys| == 2
  }

  predicate LaterStep(previous: TrustSet, next: TrustSet) {
    && Valid(next) && Valid(previous)
    && next.id == previous.id && next.generation == previous.generation + 1 && |next.keys| != |previous.keys|
    && KeptKeysBounded(previous.keys, next.keys) && NewKeysNotLegacy(previous.keys, next.keys)
    && |Departed(previous.keys, next.keys)| == |previous.keys| - 1
    && multiset(next.retired) == multiset(previous.retired + Departed(previous.keys, next.keys))
  }

  /** CheckTransition. */
  predicate Accepted(previous: Option<TrustSet>, legacy: KeyId, next: TrustSet) {
    match previous
    case None => InitialMigration(legacy, next)
    case Some(p) => LaterStep(p, next)
  }

  /** No two keys of a valid set are both in their windows at moments a day or more apart, and there is a moment at
      which both are. */
  lemma OverlapIsADayAtMost(s: TrustSet)
    requires Valid(s) && |s.keys| == 2
    ensures forall t, u :: BothOpen(s, t) && BothOpen(s, u) ==> u - t < 86400
    ensures exists t :: BothOpen(s, t)
  {
    hide Hex, Distinct, GoodKey;
    assert GoodWindow(s.keys[0]) && GoodWindow(s.keys[1]);
    assert BothOpen(s, Max(s.keys[0].notBefore, s.keys[1].notBefore));
  }

  predicate BothOpen(s: TrustSet, t: int) {
    forall i :: 0 <= i < |s.keys| ==> s.keys[i].notBefore <= t < s.keys[i].notAfter
  }

  // ---- The validators as loops ----

  lemma DistinctParts<T>(a: seq<T>, b: seq<T>)
    ensures Distinct(a + b) <==> Distinct(a) && Distinct(b) && forall j :: 0 <= j < |b| ==> b[j] !in a
  {
    var c := a + b;
    if Distinct(c) {
      forall i, j | 0 <= i < j < |b| ensures b[i] != b[j] { assert c[|a| + i] != c[|a| + j]; }
      forall i, j | 0 <= i < j < |a| ensures a[i] != a[j] { assert c[i] != c[j]; }
      forall j | 0 <= j < |b| ensures b[j] !in a {
        assert forall i :: 0 <= i < |a| ==> c[i] == a[i] && c[i] != c[|a| + j];
      }
    }
  }

  lemma DistinctSnoc<T>(a: seq<T>, i: nat)
    requires i < |a| && Distinct(a[..i])
    ensures a[..i + 1] == a[..i] + [a[i]]
    ensures Distinct(a[..i + 1]) <==> a[i] !in a[..i]
    ensures a[i] in a[..i] ==> !Distinct(a)
  {
    var x := a[i];
    assert a[..i + 1] == a[..i] + [x];
    DistinctParts(a[..i], [x]);
    if x in a[..i] {
      var j :| 0 <= j < i && a[j] == x;
    }
  }

  /** First loop of TrustSet.Validate: no retired ID occurs twice. */
  method CheckRetired(retired: seq<KeyId>) returns (ok: bool, seen: set<KeyId>)
    ensures ok <==> Distinct(retired)
    ensures ok ==> seen == set id | id in retired
  {
    seen := {};
    for i := 0 to |retired|
      invariant seen == (set id | id in retired[..i]) && Distinct(retired[..i])
    {
      DistinctSnoc(retired, i);
      if retired[i] in seen {
        return false, seen;
      }
      seen := seen + {retired[i]};
    }
    assert retired[..|retired|] == retired;
    return true, seen;
  }

  function LegacyKeys(keys: seq<TrustKey>): nat {
    if keys == [] then 0 else LegacyKeys(keys[..|keys| - 1]) + if keys[|keys| - 1].legacy then 1 else 0
  }

  lemma LegacyKeysOfFew(keys: seq<TrustKey>)
    requires 1 <= |keys| <= 2
    ensures LegacyKeys(keys) > 1 <==> |keys| == 2 && keys[0].legacy && keys[1].legacy
  {
    if |keys| == 2 {
      assert keys[..1] == [keys[0]];
      assert LegacyKeys([keys[0]]) == if keys[0].legacy then 1 else 0;
    }
  }

  function Members<T>(s: seq<T>): set<T> {
    set x | x in s
  }

  lemma NoMembers<T>(s: seq<T>)
    ensures Members(s[..0]) == {} && Distinct(s[..0])
  {
  }

  lemma MembersSnoc<T>(s: seq<T>, i: nat)
    requires i < |s|
    ensures Members(s[..i + 1]) == Members(s[..i]) + {s[i]}
    ensures s[i] in Members(s[..i]) <==> s[i] in s[..i]
  {
    assert s[..i + 1] == s[..i] + [s[i]];
  }

  /** Second loop of TrustSet.Validate: keys are well formed and neither repeated nor retired. */
  method CheckKeys(keys: seq<TrustKey>, retired: set<KeyId>) returns (ok: bool, legacy: nat)
    ensures ok <==> Distinct(Ids(keys)) && forall i :: 0 <= i < |keys| ==> GoodWindow(keys[i]) && keys[i].id !in retired
    ensures ok ==> legacy == LegacyKeys(keys)
  {
    hide Distinct, GoodKey, Key, Ids, Members;
    legacy := 0;
    var seen := retired;
    ghost var ids := Ids(keys);
    NoMembers(ids);
    for i := 0 to |keys|
      invariant seen == retired + Members(ids[..i]) && Distinct(ids[..i])
      invariant forall j :: 0 <= j < i ==> GoodWindow(keys[j]) && keys[j].id !in retired
      invariant legacy == LegacyKeys(keys[..i])
    {
      assert keys[..i + 1][..i] == keys[..i];
      DistinctSnoc(ids, i);
      MembersSnoc(ids, i);
      var k := keys[i];
      if !GoodKey(k) || k.id in seen || k.notBefore <= 0 || k.notAfter <= k.notBefore {
        return false, legacy;
      }
      seen := seen + {k.id};
      if k.legacy {
        legacy := legacy + 1;
      }
    }
    assert keys[..|keys|] == keys && ids[..|keys|] == ids;
    return true, legacy;
  }

  method Validate(s: TrustSet) returns (ok: bool)
    ensures ok <==> Valid(s)
  {
    if s.version != 1 || !Hex(s.id, 32) || s.generation < 1 || s.generation > MAX_GENERATION
       || |s.keys| < 1 || |s.keys| > 2 || |s.retired| > MAX_RETIRED_KEYS
    {
      return false;
    }
    DistinctParts(s.retired, Ids(s.keys));
    var fresh', seen := CheckRetired(s.retired);
    if !fresh' {
      return false;
    }
    var good, legacy := CheckKeys(s.keys, seen);
    if !good {
      return false;
    }
    LegacyKeysOfFew(s.keys);
    if legacy > 1 {
      return false;
    }
    if |s.keys| == 2 {
      var start := Max(s.keys[0].notBefore, s.keys[1].notBefore);
      var end := Min(s.keys[0].notAfter, s.keys[1].notAfter);
      if end <= start || end - start > MAX_OVERLAP {
        return false;
      }
    }
    return true;
  }

  method CheckTransition(previous: Option<TrustSet>, legacy: KeyId, next: TrustSet) returns (ok: bool)
    ensures ok <==> Accepted(previous, legacy, next)
  {
    var valid := Validate(next);
    if !valid {
      return false;
    }
    if previous.None? {
      var k := Key(next.keys, legacy);
      return k.Some? && k.value.legacy && next.generation == 1 && next.retired == [] && |next.keys| == 2;
    }
    var before := previous.value;
    valid := Validate(before);
    if !valid {
      return false;
    }
    if next.id != before.id || next.generation != before.generation + 1 || |next.keys| == |before.keys| {
      return false;
    }
    var bounded, departed := KeptKeys(before.keys, next.keys);
    if !bounded {
      return false;
    }
    var plain := NoNewLegacy(before.keys, next.keys);
    if !plain {
      return false;
    }
    var expected := before.retired + departed;
    return |before.keys| - |departed| == 1 && multiset(expected) == multiset(next.retired);
  }

  /** First loop of CheckTransition: compare kept keys and collect the departed ones. */
  method KeptKeys(before: seq<TrustKey>, after: seq<TrustKey>) returns (ok: bool, departed: seq<KeyId>)
    ensures ok <==> KeptKeysBounded(before, after)
    ensures ok ==> departed == Departed(before, after)
  {
    hide Key, NoMoreAuthority;
    departed := [];
    for i := 0 to |before|
      invariant departed == Departed(before[..i], after)
      invariant forall j ::
                  0 <= j < i && before[j].id in Ids(after) ==>
                    NoMoreAuthority(before[j], Key(after, before[j].id).value)
    {
      assert before[..i + 1][..i] == before[..i];
      var was := before[i];
      var k := Key(after, was.id);
      if k.None? {
        departed := departed + [was.id];
      } else if !NoMoreAuthority(was, k.value) {
        return false, departed;
      }
    }
    assert before[..|before|] == before;
    return true, departed;
  }

  /** Second loop of CheckTransition: added keys must not accept legacy envelopes. */
  method NoNewLegacy(before: seq<TrustKey>, after: seq<TrustKey>) returns (ok: bool)
    ensures ok <==> NewKeysNotLegacy(before, after)
  {
    for i := 0 to |after|
      invariant forall j :: 0 <= j < i && after[j].id !in Ids(before) ==> !after[j].legacy
    {
      if Key(before, after[i].id).None? && after[i].legacy {
        return false;
      }
    }
    return true;
  }

  // ---- Chains of accepted transitions ----

  /** The transition that installed the i-th set was accepted. */
  ghost predicate Link(sets: seq<TrustSet>, legacy: KeyId, i: nat)
    requires i < |sets|
  {
    Accepted(if i == 0 then None else Some(sets[i - 1]), legacy, sets[i])
  }

  ghost predicate Chain(sets: seq<TrustSet>, legacy: KeyId) {
    |sets| > 0 && forall i: nat :: i < |sets| ==> Link(sets, legacy, i)
  }

  lemma RetiredGrows(previous: TrustSet, next: TrustSet)
    requires LaterStep(previous, next)
    ensures |next.retired| == |previous.retired| + |previous.keys| - 1
    ensures forall id :: id in next.retired <==> id in previous.retired || id in Departed(previous.keys, next.keys)
  {
    var all := previous.retired + Departed(previous.keys, next.keys);
    assert |multiset(next.retired)| == |multiset(all)|;
    forall id ensures id in next.retired <==> id in all {
      assert id in multiset(next.retired) <==> id in multiset(all);
    }
  }

  lemma RetiredAreNotKeys(s: TrustSet)
    requires Valid(s)
    ensures forall id :: id in s.retired ==> id !in Ids(s.keys)
  {
    DistinctParts(s.retired, Ids(s.keys));
  }

  /** The n-th accepted set has generation n; odd generations hold two keys, even ones one,
      and half the generation (rounded down) has been retired. */
  lemma {:induction false} ChainShape(sets: seq<TrustSet>, legacy: KeyId, n: nat)
    requires Chain(sets, legacy) && n < |sets|
    ensures Valid(sets[n]) && sets[n].generation == n + 1 && sets[n].id == sets[0].id
    ensures |sets[n].keys| == (if n % 2 == 0 then 2 else 1)
    ensures |sets[n].retired| == (n + 1) / 2
  {
    hide KeptKeysBounded, NewKeysNotLegacy, Departed, Distinct, GoodWindow, Key;
    assert Link(sets, legacy, n);
    if n > 0 {
      ChainShape(sets, legacy, n - 1);
      RetiredGrows(sets[n - 1], sets[n]);
    }
  }

  /** A chain has at most 129 generations. */
  lemma ChainLength(sets: seq<TrustSet>, legacy: KeyId)
    requires Chain(sets, legacy)
    ensures |sets| <= 129
  {
    ChainShape(sets, legacy, |sets| - 1);
  }

  lemma {:induction false} KeyAt(keys: seq<TrustKey>, i: nat)
    requires i < |keys| && Distinct(Ids(keys))
    ensures Key(keys, keys[i].id) == Some(keys[i])
  {
    hide Key;
    assert keys[i].id == Ids(keys)[i] && keys[i].id in Ids(keys);
    var k := Key(keys, keys[i].id).value;
    var j :| 0 <= j < |keys| && keys[j] == k;
    assert Ids(keys)[j] == Ids(keys)[i];
  }

  lemma ValidIdsDistinct(s: TrustSet)
    requires Valid(s)
    ensures Distinct(Ids(s.keys))
  {
    DistinctParts(s.retired, Ids(s.keys));
  }

  /** What one step keeps, in terms of key IDs alone. */
  ghost predicate Keeps(p: TrustSet, n: TrustSet) {
    && (forall id :: id in p.retired ==> id in n.retired)
    && (forall id :: id in Ids(p.keys) && id !in Ids(n.keys) ==> id in n.retired)
    && (forall id :: id in n.retired ==> id !in Ids(n.keys))
    && (forall id ::
         id in Ids(p.keys) && id in Ids(n.keys) ==> NoMoreAuthority(Key(p.keys, id).value, Key(n.keys, id).value))
    && (forall id :: id in Ids(n.keys) && Key(n.keys, id).value.legacy ==> id in Ids(p.keys))
  }

  lemma StepBoundsKey(previous: TrustSet, next: TrustSet, id: KeyId)
    requires KeptKeysBounded(previous.keys, next.keys) && id in Ids(previous.keys) && id in Ids(next.keys)
    ensures NoMoreAuthority(Key(previous.keys, id).value, Key(next.keys, id).value)
  {
    var was := Key(previous.keys, id).value;
    var i :| 0 <= i < |previous.keys| && previous.keys[i] == was;
    assert previous.keys[i].id in Ids(next.keys);
  }

  lemma StepLegacy(previous: TrustSet, next: TrustSet, id: KeyId)
    requires NewKeysNotLegacy(previous.keys, next.keys) && id in Ids(next.keys) && Key(next.keys, id).value.legacy
    ensures id in Ids(previous.keys)
  {
    var k := Key(next.keys, id).value;
    var i :| 0 <= i < |next.keys| && next.keys[i] == k;
  }

  lemma StepKeeps(previous: TrustSet, next: TrustSet)
    requires LaterStep(previous, next)
    ensures Keeps(previous, next)
  {
    RetiredGrows(previous, next);
    RetiredAreNotKeys(next);
    forall id | id in Ids(previous.keys) && id in Ids(next.keys)
      ensures NoMoreAuthority(Key(previous.keys, id).value, Key(next.keys, id).value)
    {
      StepBoundsKey(previous, next, id);
    }
    forall id | id in Ids(next.keys) && Key(next.keys, id).value.legacy ensures id in Ids(previous.keys) {
      StepLegacy(previous, next, id);
    }
  }

  ghost predicate Descends(sets: seq<TrustSet>, i: nat)
    requires i < |sets|
  {
    i > 0 ==> Keeps(sets[i - 1], sets[i])
  }

  ghost predicate Lineage(sets: seq<TrustSet>) {
    forall i: nat :: i < |sets| ==> Descends(sets, i)
  }

  lemma ChainIsLineage(sets: seq<TrustSet>, legacy: KeyId)
    requires Chain(sets, legacy)
    ensures Lineage(sets)
  {
    forall i: nat | i < |sets| ensures Descends(sets, i) {
      assert Link(sets, legacy, i);
      if i > 0 { StepKeeps(sets[i - 1], sets[i]); }
    }
  }

  lemma {:induction false} RetiredForever(sets: seq<TrustSet>, i: nat, j: nat, id: KeyId)
    requires Lineage(sets) && 0 < i <= j < |sets| && id in sets[i].retired
    ensures id in sets[j].retired && id !in Ids(sets[j].keys)
  {
    assert Descends(sets, j);
    if i < j { RetiredForever(sets, i, j - 1, id); }
  }

  lemma {:induction false} Leavers(sets: seq<TrustSet>, i: nat, j: nat, k: nat, id: KeyId)
    requires Lineage(sets) && i <= j <= k < |sets| && id in Ids(sets[i].keys) && id !in Ids(sets[j].keys)
    ensures id !in Ids(sets[k].keys)
  {
    if id in Ids(sets[j - 1].keys) {
      assert Descends(sets, j);
      RetiredForever(sets, j, k, id);
    } else {
      Leavers(sets, i, j - 1, k, id);
    }
  }

  lemma {:induction false} Bounded(sets: seq<TrustSet>, i: nat, j: nat, id: KeyId)
    requires Lineage(sets) && i <= j < |sets| && id in Ids(sets[i].keys) && id in Ids(sets[j].keys)
    ensures NoMoreAuthority(Key(sets[i].keys, id).value, Key(sets[j].keys, id).value)
  {
    if i < j {
      if id !in Ids(sets[j - 1].keys) { Leavers(sets, i, j - 1, j, id); }
      Bounded(sets, i, j - 1, id);
      assert Descends(sets, j);
    }
  }

  /** A key that leaves a chain of accepted transitions never returns. */
  lemma LeaversStayOut(sets: seq<TrustSet>, legacy: KeyId, i: nat, j: nat, k: nat, id: KeyId)
    requires Chain(sets, legacy) && i <= j <= k < |sets| && id in Ids(sets[i].keys) && id !in Ids(sets[j].keys)
    ensures id !in Ids(sets[k].keys)
  {
    ChainIsLineage(sets, legacy);
    Leavers(sets, i, j, k, id);
  }

  /** No key ever gains authority: between any two sets of a chain that both hold it, its bytes,
      start and legacy flag are equal and its end only moves earlier. */
  lemma AuthorityNeverGrows(sets: seq<TrustSet>, legacy: KeyId, i: nat, j: nat, id: KeyId)
    requires Chain(sets, legacy) && i <= j < |sets| && id in Ids(sets[i].keys) && id in Ids(sets[j].keys)
    ensures NoMoreAuthority(Key(sets[i].keys, id).value, Key(sets[j].keys, id).value)
  {
    ChainIsLineage(sets, legacy);
    Bounded(sets, i, j, id);
  }

  lemma {:induction false} LegacyDescends(sets: seq<TrustSet>, j: nat, id: KeyId)
    requires Lineage(sets) && j < |sets| && id in Ids(sets[j].keys) && Key(sets[j].keys, id).value.legacy
    ensures id in Ids(sets[0].keys) && Key(sets[0].keys, id).value.legacy
  {
    hide Key;
    if j > 0 {
      assert Descends(sets, j);
      LegacyDescends(sets, j - 1, id);
    }
  }

  lemma OneLegacyKey(s: TrustSet, a: KeyId, b: KeyId)
    requires Valid(s) && |s.keys| == 2 && a in Ids(s.keys) && b in Ids(s.keys)
    requires Key(s.keys, a).value.legacy && Key(s.keys, b).value.legacy
    ensures a == b
  {
    var x, y := Key(s.keys, a).value, Key(s.keys, b).value;
    assert x == s.keys[0] || x == s.keys[1];
    assert y == s.keys[0] || y == s.keys[1];
  }

  /** Legacy envelopes are never accepted under any key but the one pinned before the migration. */
  lemma OnlyThePinnedKeyIsLegacy(sets: seq<TrustSet>, legacy: KeyId, j: nat, id: KeyId)
    requires Chain(sets, legacy) && j < |sets| && id in Ids(sets[j].keys) && Key(sets[j].keys, id).value.legacy
    ensures id == legacy
  {
    ChainIsLineage(sets, legacy);
    LegacyDescends(sets, j, id);
    assert Link(sets, legacy, 0);
    OneLegacyKey(sets[0], id, legacy);
  }

  // ---- The two planned transitions ----

  predicate StageTimes(nextKey: PublicKey, now: int, retireAt: int, validUntil: int) {
    |nextKey| == 32 && now + 300 < retireAt <= now + 86400 && retireAt < validUntil
  }

  /** The set that Stage proposes for an existing single-key set. */
  function StagedSet(p: TrustSet, nextKey: PublicKey, now: int, retireAt: int, validUntil: int): TrustSet
    requires |p.keys| == 1
  {
    var kept := p.keys[0].(notAfter := Min(p.keys[0].notAfter, retireAt));
    p.(generation := p.generation + 1, keys := [kept, NewTrustKey(nextKey, now, validUntil, false)])
  }

  /** The set that Stage proposes when only a legacy key is pinned. */
  function FirstSet(
      legacy: PublicKey, setId: string, nextKey: PublicKey, now: int, retireAt: int, validUntil: int): TrustSet
  {
    TrustSet(1, setId, 1,
             [NewTrustKey(legacy, now - MAX_LIFETIME - MAX_CLOCK_SKEW, retireAt, true),
              NewTrustKey(nextKey, now, validUntil, false)], [])
  }

  /** The next key is added beside the present one, plain and from now to the time asked for; the present one gives up
      whatever lies after its retirement, and the pinned key of a first set is the legacy one. */
  predicate Adds(legacy: PublicKey, previous: Option<TrustSet>, nextKey: PublicKey, now: int, retireAt: int,
                 validUntil: int, setId: string, next: TrustSet) {
    && |next.keys| == 2
    && next.keys[1] == TrustKey(Sha256(nextKey), Encoded(nextKey), now, validUntil, false)
    && match previous
       case None =>
         next == TrustSet(1, setId, 1, next.keys, [])
         && next.keys[0] == TrustKey(Sha256(legacy), Encoded(legacy), now - 330, retireAt, true)
       case Some(p) =>
         && |p.keys| == 1 && next == p.(generation := p.generation + 1, keys := next.keys)
         && next.keys[0] == p.keys[0].(notAfter := if retireAt < p.keys[0].notAfter then retireAt
                                                   else p.keys[0].notAfter)
  }

  /** Stage; `setId` is the random identifier of a first set. */
  method Stage(legacy: PublicKey, previous: Option<TrustSet>, nextKey: PublicKey, now: int,
               retireAt: int, validUntil: int, setId: string)
    returns (r: Option<TrustSet>)
    ensures r.Some? ==>
              Accepted(previous, Sha256(legacy), r.value)
              && Adds(legacy, previous, nextKey, now, retireAt, validUntil, setId, r.value)
    ensures previous.None? ==>
              (r.Some? <==> StageTimes(nextKey, now, retireAt, validUntil) && |legacy| == 32 && nextKey != legacy
                            && Hex(setId, 32) && 330 < now)
    ensures previous.Some? ==>
              (r.Some? <==>
                  StageTimes(nextKey, now, retireAt, validUntil) && CanStage(previous.value, nextKey, now, retireAt))
  {
    if |nextKey| != KEY_SIZE || retireAt <= now + MAX_LIFETIME || retireAt - now > MAX_OVERLAP
       || validUntil <= retireAt {
      return None;
    }
    var s;
    if previous.None? {
      if |legacy| != KEY_SIZE {
        return None;
      }
      s := FirstSet(legacy, setId, nextKey, now, retireAt, validUntil);
      FirstSetAccepted(legacy, setId, nextKey, now, retireAt, validUntil);
    } else {
      var p := previous.value;
      var valid := Validate(p);
      if !valid || |p.keys| != 1 || |p.retired| >= MAX_RETIRED_KEYS || p.keys[0].notAfter <= now + MAX_LIFETIME {
        return None;
      }
      s := StagedSet(p, nextKey, now, retireAt, validUntil);
      StagedSetAccepted(p, nextKey, now, retireAt, validUntil);
    }
    var ok := CheckTransition(previous, Sha256(legacy), s);
    return if ok then Some(s) else None;
  }

  /** When a next key can be added: one current key, room in the history and the generations, enough
      life left, a positive clock, a fresh next key, and a current key that starts before the overlap would end. */
  predicate CanStage(p: TrustSet, nextKey: PublicKey, now: int, retireAt: int) {
    && Valid(p) && |p.keys| == 1 && |p.retired| < 64 && p.generation < 129
    && 0 < now && now + 300 < p.keys[0].notAfter && p.keys[0].notBefore < retireAt
    && Sha256(nextKey) != p.keys[0].id && Sha256(nextKey) !in p.retired
  }

  lemma FirstSetAccepted(legacy: PublicKey, setId: string, nextKey: PublicKey, now: int, retireAt: int, validUntil: int)
    requires |legacy| == KEY_SIZE && StageTimes(nextKey, now, retireAt, validUntil)
    ensures Accepted(None, Sha256(legacy), FirstSet(legacy, setId, nextKey, now, retireAt, validUntil)) <==>
              nextKey != legacy && Hex(setId, 32) && MAX_LIFETIME + MAX_CLOCK_SKEW < now
  {
    var s := FirstSet(legacy, setId, nextKey, now, retireAt, validUntil);
    assert s.retired + Ids(s.keys) == [Sha256(legacy), Sha256(nextKey)];
    if nextKey == legacy {
      assert (s.retired + Ids(s.keys))[0] == (s.retired + Ids(s.keys))[1];
    }
  }

  lemma DepartedWhenAllKept(before: seq<TrustKey>, after: seq<TrustKey>)
    requires forall i :: 0 <= i < |before| ==> before[i].id in Ids(after)
    ensures Departed(before, after) == []
  {
  }

  lemma StagedKeysDistinct(p: TrustSet, nextKey: PublicKey, s: TrustSet)
    requires |p.keys| == 1 && |s.keys| == 2 && s.retired == p.retired && Distinct(p.retired + Ids(p.keys))
    requires s.keys[0].id == p.keys[0].id && s.keys[1].id == Sha256(nextKey)
    ensures Distinct(s.retired + Ids(s.keys)) <==> Sha256(nextKey) != p.keys[0].id && Sha256(nextKey) !in p.retired
  {
    DistinctParts(p.retired, Ids(p.keys));
    DistinctParts(s.retired, Ids(s.keys));
    assert Ids(p.keys) == [p.keys[0].id] && Ids(s.keys) == [p.keys[0].id, Sha256(nextKey)];
  }

  lemma {:induction false} StagedSetAccepted(p: TrustSet, nextKey: PublicKey, now: int, retireAt: int, validUntil: int)
    requires Valid(p) && |p.keys| == 1 && |p.retired| < MAX_RETIRED_KEYS
    requires StageTimes(nextKey, now, retireAt, validUntil) && now + MAX_LIFETIME < p.keys[0].notAfter
    ensures LaterStep(p, StagedSet(p, nextKey, now, retireAt, validUntil)) <==> CanStage(p, nextKey, now, retireAt)
  {
    hide Distinct;
    var s := StagedSet(p, nextKey, now, retireAt, validUntil);
    StagedKeysDistinct(p, nextKey, s);
    if CanStage(p, nextKey, now, retireAt) {
      assert Ids(s.keys)[0] == p.keys[0].id;
      DepartedWhenAllKept(p.keys, s.keys);
      assert p.retired + [] == p.retired;
    }
  }

  /** The set that Retire proposes. */
  function RetiredSet(p: TrustSet, id: KeyId): TrustSet {
    p.(generation := p.generation + 1, keys := Without(p.keys, id), retired := p.retired + [id])
  }

  function Without(keys: seq<TrustKey>, id: KeyId): seq<TrustKey> {
    if keys == [] then []
    else
      var rest := Without(keys[..|keys| - 1], id);
      if keys[|keys| - 1].id == id then rest else rest + [keys[|keys| - 1]]
  }

  /** The key is gone and listed as retired, and only the other one is left. */
  ghost predicate Drops(p: TrustSet, id: KeyId, next: TrustSet) {
    && next == p.(generation := p.generation + 1, keys := next.keys, retired := p.retired + [id]) && |next.keys| == 1
    && forall k :: k in next.keys <==> k in p.keys && k.id != id
  }

  lemma RetiredDrops(p: TrustSet, id: KeyId)
    requires Valid(p) && |p.keys| == 2 && id in Ids(p.keys)
    ensures Drops(p, id, RetiredSet(p, id))
  {
    ValidIdsDistinct(p);
    assert Ids(p.keys)[0] != Ids(p.keys)[1];
    hide Valid;
    WithoutOfTwo(p.keys, id);
  }

  method Retire(previous: TrustSet, id: KeyId) returns (r: Option<TrustSet>)
    ensures r.Some? ==> Accepted(Some(previous), Sha256(""), r.value) && Drops(previous, id, r.value)
    ensures r.Some? <==> Valid(previous) && |previous.keys| == 2 && id in Ids(previous.keys)
                         && |previous.retired| < 64 && previous.generation < 129
  {
    var keys: seq<TrustKey> := [];
    for i := 0 to |previous.keys|
      invariant keys == Without(previous.keys[..i], id)
    {
      assert previous.keys[..i + 1][..i] == previous.keys[..i];
      if previous.keys[i].id != id {
        keys := keys + [previous.keys[i]];
      }
    }
    assert previous.keys[..|previous.keys|] == previous.keys;
    var s := previous.(generation := previous.generation + 1, keys := keys, retired := previous.retired + [id]);
    var ok := CheckTransition(Some(previous), Sha256(""), s);
    RetireAccepted(previous, id);
    if ok { RetiredDrops(previous, id); }
    return if ok then Some(s) else None;
  }

  lemma WithoutOfTwo(keys: seq<TrustKey>, id: KeyId)
    requires |keys| == 2 && keys[0].id != keys[1].id
    ensures Without(keys, id) == (if keys[0].id == id then [keys[1]] else if keys[1].id == id then [keys[0]] else keys)
    ensures id in Ids(keys) ==> Departed(keys, Without(keys, id)) == [id]
  {
    assert keys[..1] == [keys[0]] && keys[..1][..0] == [];
    assert Without(keys[..1], id) == if keys[0].id == id then [] else [keys[0]];
    assert Ids(keys) == [keys[0].id, keys[1].id];
    var w := Without(keys, id);
    if id in Ids(keys) {
      assert |w| == 1 && Ids(w) == [w[0].id];
      assert Departed(keys[..1], w) == if keys[0].id == id then [id] else [];
    }
  }

  lemma {:induction false} RetireAccepted(p: TrustSet, id: KeyId)
    ensures LaterStep(p, RetiredSet(p, id)) <==>
              Valid(p) && |p.keys| == 2 && id in Ids(p.keys) && |p.retired| < MAX_RETIRED_KEYS
                && p.generation < MAX_GENERATION
  {
    var s := RetiredSet(p, id);
    if Valid(p) && |p.keys| == 2 {
      ValidIdsDistinct(p);
      assert Ids(p.keys)[0] != Ids(p.keys)[1];
      WithoutOfTwo(p.keys, id);
      if id in Ids(p.keys) && |p.retired| < MAX_RETIRED_KEYS && p.generation < MAX_GENERATION {
        RetireTwo(p, id);
      }
    } else if LaterStep(p, s) {
      RetiredGrows(p, s);
      assert false;
    }
  }

  lemma MovePair<T>(r: seq<T>, pair: seq<T>, a: T, b: T)
    requires |pair| == 2 && Distinct(r + pair) && ((a == pair[0] && b == pair[1]) || (a == pair[1] && b == pair[0]))
    ensures Distinct(r + [a] + [b])
  {
    DistinctParts(r, pair);
    assert r + [a] + [b] == r + [a, b];
    DistinctParts(r, [a, b]);
  }

  lemma RetireShape(p: TrustSet, id: KeyId)
    requires |p.keys| == 2 && Ids(p.keys)[0] != Ids(p.keys)[1] && id in Ids(p.keys)
    ensures |Without(p.keys, id)| == 1 && Without(p.keys, id)[0] in p.keys
            && Departed(p.keys, Without(p.keys, id)) == [id]
    ensures Ids(Without(p.keys, id)) == [if id == Ids(p.keys)[0] then Ids(p.keys)[1] else Ids(p.keys)[0]]
  {
    WithoutOfTwo(p.keys, id);
  }

  lemma RetireValid(p: TrustSet, id: KeyId)
    requires Valid(p) && |p.keys| == 2 && id in Ids(p.keys) && |p.retired| < MAX_RETIRED_KEYS
             && p.generation < MAX_GENERATION
    ensures Ids(p.keys)[0] != Ids(p.keys)[1] && Valid(RetiredSet(p, id))
  {
    ValidIdsDistinct(p);
    var ids := Ids(p.keys);
    assert ids[0] != ids[1];
    hide Distinct, Key, Without;
    RetireShape(p, id);
    var s := RetiredSet(p, id);
    MovePair(p.retired, ids, id, Ids(s.keys)[0]);
  }

  lemma RetireTwo(p: TrustSet, id: KeyId)
    requires Valid(p) && |p.keys| == 2 && id in Ids(p.keys) && |p.retired| < MAX_RETIRED_KEYS
             && p.generation < MAX_GENERATION
    ensures LaterStep(p, RetiredSet(p, id))
  {
    RetireValid(p, id);
    RetireShape(p, id);
    var s := RetiredSet(p, id);
    RetireKeeps(p, id);
  }

  lemma RetireKeeps(p: TrustSet, id: KeyId)
    requires |p.keys| == 2 && Ids(p.keys)[0] != Ids(p.keys)[1] && id in Ids(p.keys)
    ensures KeptKeysBounded(p.keys, Without(p.keys, id)) && NewKeysNotLegacy(p.keys, Without(p.keys, id))
  {
    RetireShape(p, id);
    var w := Without(p.keys, id);
    KeyAt(w, 0);
    assert Ids(w)[0] == w[0].id;
  }
}
