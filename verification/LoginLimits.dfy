/** The durable login rate limiter (internal/state/admin.go, admitLogin). */
module LoginLimits {
  import opened Core
  import opened Tables

  const WINDOW := 60
  const MAX_BUCKETS := 1024

  /** One row of admin_limits is kept per bucket; a source is stored by its digest. */
  datatype Bucket = Global | Source(digest: Sha256<string>) | Name(name: string)

  datatype Counter = Counter(started: int64, count: int)

  type Limits = map<Bucket, Counter>

  function Limit(b: Bucket): int {
    match b
    case Global => 30
    case Source(_) => 10
    case Name(_) => 5
  }

  function Pruned(m: Limits, now: int64): Limits {
    map b | b in m && m[b].started > now - WINDOW :: m[b]
  }

  function Current(m: Limits, b: Bucket, now: int64): Counter {
    if b in m then m[b] else Counter(now, 0)
  }

  function Bumped(c: Counter, b: Bucket): Counter {
    Counter(c.started, Min(c.count + 1, Limit(b) + 1))
  }

  /** The new rows, whether the attempt is allowed, and whether it is the first one blocked by some bucket. */
  datatype Verdict = Verdict(limits: Limits, allowed: bool, firstBlock: bool)

  /** Counting one attempt in one bucket; nothing when the table is full. */
  function CountOne(v: Verdict, b: Bucket, now: int64): Option<Verdict> {
    var c := Current(v.limits, b, now);
    if b !in v.limits && |v.limits| >= MAX_BUCKETS then None
    else Some(Verdict(v.limits[b := Bumped(c, b)], v.allowed && c.count < Limit(b),
                      v.firstBlock || c.count == Limit(b)))
  }

  /** Counting one attempt in each bucket in turn. */
  function CountIn(m: Limits, buckets: seq<Bucket>, now: int64): Option<Verdict> {
    if buckets == [] then Some(Verdict(m, true, false))
    else
      match CountIn(m, buckets[..|buckets| - 1], now)
      case None => None
      case Some(v) => CountOne(v, buckets[|buckets| - 1], now)
  }

  function BucketsOf(name: string, source: string): seq<Bucket> {
    [Global, Source(Sha256(source)), Name(name)]
  }

  function Admit(m: Limits, name: string, source: string, now: int64): Option<Verdict> {
    CountIn(Pruned(m, now), BucketsOf(name, source), now)
  }

  /** The body of the loop in admitLogin. */
  method CountBucket(v: Verdict, b: Bucket, now: int64) returns (r: Option<Verdict>)
    ensures r == CountOne(v, b, now)
  {
    var started, count := now, 0;
    if b in v.limits {
      started, count := v.limits[b].started, v.limits[b].count;
    } else if |v.limits| >= MAX_BUCKETS {
      return None;
    }
    var allowed, firstBlock := v.allowed, v.firstBlock;
    if count >= Limit(b) {
      allowed := false;
      if count == Limit(b) {
        firstBlock := true;
      }
    }
    return Some(Verdict(v.limits[b := Counter(started, Min(count + 1, Limit(b) + 1))], allowed, firstBlock));
  }

  /** admitLogin: prune, then count in three buckets. */
  method AdmitLogin(m: Limits, name: string, source: string, now: int64) returns (r: Option<Verdict>)
    ensures r == Admit(m, name, source, now)
  {
    hide Pruned, BucketsOf, CountOne;
    var buckets := BucketsOf(name, source);
    var start := Pruned(m, now);
    r := Some(Verdict(start, true, false));
    for i := 0 to |buckets|
      invariant r.Some? && CountIn(start, buckets[..i], now) == r
    {
      assert buckets[..i + 1][..i] == buckets[..i];
      r := CountBucket(r.value, buckets[i], now);
      if r.None? {
        StopsAt(start, buckets, i + 1, now);
        return;
      }
    }
    assert buckets[..|buckets|] == buckets;
  }

  lemma {:induction false} StopsAt(m: Limits, buckets: seq<Bucket>, i: nat, now: int64)
    requires i <= |buckets| && CountIn(m, buckets[..i], now).None?
    ensures CountIn(m, buckets, now).None?
  {
    if i < |buckets| {
      assert buckets[..|buckets| - 1][..i] == buckets[..i];
      StopsAt(m, buckets[..|buckets| - 1], i, now);
    } else {
      assert buckets[..i] == buckets;
    }
  }

  /** What counting does to each bucket. */
  lemma {:induction false} CountEffect(m: Limits, buckets: seq<Bucket>, now: int64, b: Bucket)
    requires CountIn(m, buckets, now).Some? && Distinct(buckets)
    ensures var v := CountIn(m, buckets, now).value;
            && (b in v.limits <==> b in m || b in buckets)
            && (b in v.limits ==> v.limits[b] == if b in buckets then Bumped(Current(m, b, now), b) else m[b])
            && (v.allowed && b in buckets ==> Current(m, b, now).count < Limit(b))
  {
    if buckets != [] {
      var n := |buckets| - 1;
      CountEffect(m, buckets[..n], now, b);
      assert buckets == buckets[..n] + [buckets[n]];
      if b == buckets[n] {
        assert b !in buckets[..n];
      }
    }
  }

  lemma {:induction false} TableStaysBounded(m: Limits, buckets: seq<Bucket>, now: int64)
    requires |m| <= MAX_BUCKETS && CountIn(m, buckets, now).Some?
    ensures |CountIn(m, buckets, now).value.limits| <= MAX_BUCKETS
  {
    if buckets != [] {
      TableStaysBounded(m, buckets[..|buckets| - 1], now);
      var v := CountIn(m, buckets[..|buckets| - 1], now).value;
      var b := buckets[|buckets| - 1];
      var after := v.limits[b := Bumped(Current(v.limits, b, now), b)];
      assert after.Keys == v.limits.Keys + {b};
      if b in v.limits { assert after.Keys == v.limits.Keys; }
    }
  }

  // ---- Runs, seen from one bucket ----

  /** The life of one row: when it was created, and the attempts allowed while it lived. */
  datatype Life = Life(start: int64, times: seq<int64>, firstBlocks: nat)

  datatype World = World(limits: Limits, now: int64, lives: seq<Life>)

  datatype Attempt = Attempt(name: string, source: string, now: int64)

  function NextLives(w: World, b: Bucket, a: Attempt, v: Verdict): seq<Life> {
    if b !in BucketsOf(a.name, a.source) then w.lives
    else
      var times := if v.allowed then [a.now] else [];
      var m := Pruned(w.limits, a.now);
      var blocks := if Current(m, b, a.now).count == Limit(b) then 1 else 0;
      if b in m && w.lives != [] then
        var n := |w.lives| - 1;
        w.lives[n := Life(w.lives[n].start, w.lives[n].times + times, w.lives[n].firstBlocks + blocks)]
      else w.lives + [Life(a.now, times, blocks)]
  }

  function Apply(w: World, b: Bucket, a: Attempt): World {
    match Admit(w.limits, a.name, a.source, a.now)
    case None => w.(now := a.now)
    case Some(v) => World(v.limits, a.now, NextLives(w, b, a, v))
  }

  function After(w: World, b: Bucket, attempts: seq<Attempt>): World {
    if attempts == [] then w else Apply(After(w, b, attempts[..|attempts| - 1]), b, attempts[|attempts| - 1])
  }

  function Start(now: int64): World {
    World(map[], now, [])
  }

  ghost predicate Nondecreasing(now: int64, attempts: seq<Attempt>) {
    && (forall i :: 0 <= i < |attempts| ==> now <= attempts[i].now)
    && (forall i, j :: 0 <= i < j < |attempts| ==> attempts[i].now <= attempts[j].now)
  }

  /** The attempt that created the row is counted: it is the first allowed one, or uses up an allowance. */
  predicate CountsFirst(l: Life, count: int) {
    |l.times| < count || (l.times != [] && l.times[0] == l.start)
  }

  /** A life allows at most the limit, within one minute of its start. */
  predicate LifeOk(b: Bucket, l: Life) {
    && |l.times| <= Limit(b) && l.firstBlocks <= 1 && CountsFirst(l, Limit(b))
    && forall i :: 0 <= i < |l.times| ==> l.start <= l.times[i] < l.start + WINDOW
  }

  /** Lives of one bucket start at least a minute apart. */
  predicate Spaced(lives: seq<Life>) {
    forall i, j :: 0 <= i < j < |lives| ==> lives[i].start + WINDOW <= lives[j].start
  }

  predicate LivesOk(b: Bucket, lives: seq<Life>) {
    Spaced(lives) && forall i :: 0 <= i < |lives| ==> LifeOk(b, lives[i])
  }

  ghost predicate Good(w: World, b: Bucket) {
    && |w.limits| <= MAX_BUCKETS && LivesOk(b, w.lives)
    && (b in w.limits ==>
          && w.lives != []
          && (var l, c := w.lives[|w.lives| - 1], w.limits[b];
              && l.start == c.started <= w.now && |l.times| <= c.count <= Limit(b) + 1 && CountsFirst(l, c.count)
              && l.firstBlocks == (if c.count <= Limit(b) then 0 else 1)))
    && (b !in w.limits ==> w.lives == [] || w.lives[|w.lives| - 1].start + WINDOW <= w.now)
  }

  lemma PruneShrinks(m: Limits, now: int64)
    ensures |Pruned(m, now)| <= |m|
  {
    assert Pruned(m, now).Keys <= m.Keys;
    SubsetSize(Pruned(m, now).Keys, m.Keys);
  }

  lemma {:induction false} SubsetSize<T>(a: set<T>, b: set<T>)
    requires a <= b
    ensures |a| <= |b|
  {
    if a != {} {
      var x :| x in a;
      SubsetSize(a - {x}, b - {x});
    }
  }

  lemma LastLifeGrows(b: Bucket, lives: seq<Life>, l: Life)
    requires LivesOk(b, lives) && lives != [] && l.start == lives[|lives| - 1].start && LifeOk(b, l)
    ensures LivesOk(b, lives[|lives| - 1 := l])
  {
  }

  lemma NewLife(b: Bucket, lives: seq<Life>, l: Life)
    requires LivesOk(b, lives) && LifeOk(b, l) && (lives == [] || lives[|lives| - 1].start + WINDOW <= l.start)
    ensures LivesOk(b, lives + [l])
  {
  }

  lemma ApplyKeepsGood(w: World, b: Bucket, a: Attempt)
    requires Good(w, b) && w.now <= a.now
    ensures Good(Apply(w, b, a), b)
  {
    hide CountIn, LifeOk, Spaced;
    PruneShrinks(w.limits, a.now);
    var m := Pruned(w.limits, a.now);
    var buckets := BucketsOf(a.name, a.source);
    if CountIn(m, buckets, a.now).Some? {
      TableStaysBounded(m, buckets, a.now);
      CountEffect(m, buckets, a.now, b);
      var v := CountIn(m, buckets, a.now).value;
      if b in buckets { TouchedKeepsLives(w, b, a, v); }
    }
  }

  lemma TouchedKeepsLives(w: World, b: Bucket, a: Attempt, v: Verdict)
    requires Good(w, b) && w.now <= a.now && b in BucketsOf(a.name, a.source)
    requires v.allowed ==> Current(Pruned(w.limits, a.now), b, a.now).count < Limit(b)
    ensures LivesOk(b, NextLives(w, b, a, v)) && NextLives(w, b, a, v) != []
    ensures var m := Pruned(w.limits, a.now);
            var c := Bumped(Current(m, b, a.now), b);
            var l := NextLives(w, b, a, v)[|NextLives(w, b, a, v)| - 1];
            && l.start == c.started <= a.now && |l.times| <= c.count <= Limit(b) + 1 && CountsFirst(l, c.count)
            && l.firstBlocks == (if c.count <= Limit(b) then 0 else 1)
  {
    hide Spaced;
    var m := Pruned(w.limits, a.now);
    var times := if v.allowed then [a.now] else [];
    var blocks := if Current(m, b, a.now).count == Limit(b) then 1 else 0;
    if b in m {
      var last := w.lives[|w.lives| - 1];
      LastLifeGrows(b, w.lives, Life(last.start, last.times + times, last.firstBlocks + blocks));
    } else {
      NewLife(b, w.lives, Life(a.now, times, blocks));
    }
  }

  lemma {:induction false} RunIsGood(now: int64, b: Bucket, attempts: seq<Attempt>)
    requires Nondecreasing(now, attempts)
    ensures var w := After(Start(now), b, attempts);
            Good(w, b) && w.now == if attempts == [] then now else attempts[|attempts| - 1].now
  {
    hide Good;
    if attempts == [] {
      StartIsGood(now, b);
    } else {
      var n := |attempts| - 1;
      RunIsGood(now, b, attempts[..n]);
      ApplyKeepsGood(After(Start(now), b, attempts[..n]), b, attempts[n]);
      hide Admit, NextLives;
    }
  }

  lemma StartIsGood(now: int64, b: Bucket)
    ensures Good(Start(now), b)
  {
  }

  /** Attempts allowed in the minute from `from` on. */
  function InMinute(times: seq<int64>, from: int): nat {
    if times == [] then 0
    else InMinute(times[..|times| - 1], from) + if from <= times[|times| - 1] < from + 60 then 1 else 0
  }

  function Allowed(lives: seq<Life>, from: int): nat {
    if lives == [] then 0 else Allowed(lives[..|lives| - 1], from) + InMinute(lives[|lives| - 1].times, from)
  }

  lemma {:induction false} MinuteOfLife(b: Bucket, l: Life, n: nat, from: int)
    requires LifeOk(b, l) && n <= |l.times|
    ensures InMinute(l.times[..n], from) <= n
    ensures l.start + WINDOW <= from || from + WINDOW <= l.start ==> InMinute(l.times[..n], from) == 0
    ensures n > 0 && l.times[0] == l.start < from ==> InMinute(l.times[..n], from) <= n - 1
  {
    if n > 0 {
      MinuteOfLife(b, l, n - 1, from);
      assert l.times[..n][..n - 1] == l.times[..n - 1];
    }
  }

  /** What one life contributes to a minute, and what it contributes when it began before that minute. */
  lemma LifeInMinute(b: Bucket, l: Life, from: int)
    requires LifeOk(b, l)
    ensures InMinute(l.times, from) <= Limit(b)
    ensures l.start < from ==> InMinute(l.times, from) <= Limit(b) - 1
    ensures l.start + WINDOW <= from || from + WINDOW <= l.start ==> InMinute(l.times, from) == 0
  {
    MinuteOfLife(b, l, |l.times|, from);
    assert l.times[..|l.times|] == l.times;
  }

  lemma {:induction false} OldLivesCountNothing(b: Bucket, lives: seq<Life>, from: int)
    requires LivesOk(b, lives) && (lives != [] ==> lives[|lives| - 1].start + WINDOW <= from)
    ensures Allowed(lives, from) == 0
  {
    hide LifeOk;
    if lives != [] {
      var n := |lives| - 1;
      LifeInMinute(b, lives[n], from);
      OldLivesCountNothing(b, lives[..n], from);
    }
  }

  lemma {:induction false} TwoLives(b: Bucket, lives: seq<Life>, from: int)
    requires LivesOk(b, lives)
    ensures Allowed(lives, from) <= 2 * Limit(b) - 1
    ensures lives != [] && lives[|lives| - 1].start < from ==> Allowed(lives, from) <= Limit(b) - 1
  {
    hide LifeOk;
    if lives != [] {
      var n := |lives| - 1;
      LifeInMinute(b, lives[n], from);
      TwoLives(b, lives[..n], from);
      if lives[n].start < from { OldLivesCountNothing(b, lives[..n], from); }
    }
  }

  /** With a clock that never goes back, a bucket lets through at most its limit per row lifetime and fewer
      than twice its limit in any minute (nine per name, nineteen per source, fifty-nine in all), reports at
      most one first block per lifetime, and the table never exceeds 1024 rows, whatever names and sources are
      tried. */
  lemma LoginsAreLimited(now: int64, b: Bucket, attempts: seq<Attempt>, from: int, k: nat)
    requires Nondecreasing(now, attempts)
    ensures var w := After(Start(now), b, attempts);
            && Allowed(w.lives, from) < 2 * (match b case Global => 30 case Source(_) => 10 case Name(_) => 5)
            && |w.limits| <= 1024
            && (k < |w.lives| ==>
                  && |w.lives[k].times| <= (match b case Global => 30 case Source(_) => 10 case Name(_) => 5)
                  && w.lives[k].firstBlocks <= 1)
  {
    RunIsGood(now, b, attempts);
    hide After, Start, Nondecreasing;
    var w := After(Start(now), b, attempts);
    TwoLives(b, w.lives, from);
    if k < |w.lives| { assert LifeOk(b, w.lives[k]); }
  }

  // ---- One attempt ----

  /** Attempts that the row of a bucket counts now; a row older than a minute counts nothing. */
  function Counted(m: Limits, b: Bucket, now: int64): int {
    if b in m && m[b].started > now - 60 then m[b].count else 0
  }

  /** Exactly when an attempt is allowed: all three of its buckets are below their limits. It is the first blocked one
      if one of them is just at its limit, and every bucket counts it, up to one more than the limit. */
  lemma AllowedIff(m: Limits, name: string, source: string, now: int64)
    requires Admit(m, name, source, now).Some?
    ensures var v := Admit(m, name, source, now).value;
            var digest := Sha256(source);
            var inAll, bySource, byName :=
              Counted(m, Global, now), Counted(m, Source(digest), now), Counted(m, Name(name), now);
            && (v.allowed <==> inAll < 30 && bySource < 10 && byName < 5)
            && (v.firstBlock <==> inAll == 30 || bySource == 10 || byName == 5)
            && Counted(v.limits, Global, now) == Min(inAll + 1, 31)
            && Counted(v.limits, Source(digest), now) == Min(bySource + 1, 11)
            && Counted(v.limits, Name(name), now) == Min(byName + 1, 6)
  {
    hide Min;
    var start := Pruned(m, now);
    var buckets := BucketsOf(name, source);
    var one, two := [Global], [Global, Source(Sha256(source))];
    assert buckets[..2] == two && two[..1] == one && one[..0] == [];
    var v2 := CountIn(start, two, now).value;
    var v1 := CountIn(start, one, now).value;
    assert CountIn(start, one[..0], now) == Some(Verdict(start, true, false));
    assert Some(v1) == CountOne(Verdict(start, true, false), Global, now);
    assert Some(v2) == CountOne(v1, Source(Sha256(source)), now);
    assert CountIn(start, buckets, now) == CountOne(v2, Name(name), now);
  }
}
