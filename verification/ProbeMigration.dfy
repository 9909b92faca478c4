/** Trust migration over every run: when it succeeds, what it installs, and which verifier the store opens with from
    then on (internal/probe/trust.go). */
module ProbeMigration {
  import opened Core
  import opened Tables
  import opened Protocol
  import opened Ledgers
  import opened Trust
  import opened ProbeState
  import opened ProbeInvariants
  import opened ProbeRuns
  import opened ProbeTheorems

  /** The store verifies with exactly this trust set. */
  predicate Holds(b: Binding, trust: TrustSet) {
    b.Installed? && SameTrust(b.trust, trust)
  }

  /** The store still verifies with what the operator says is being replaced: the pinned key, or the previous set. */
  predicate Replaces(b: Binding, legacy: PublicKey, previous: Option<TrustSet>) {
    match previous
    case None => b == Pinned(legacy)
    case Some(p) => Holds(b, p)
  }

  /** A migration of this store would be accepted: conditions on the arguments, the clock and the tables. */
  predicate Migratable(
      s: State, node: Node, legacy: PublicKey, previous: Option<TrustSet>, next: TrustSet, now: int64)
  {
    && Accepted(previous, Sha256(legacy), next) && (previous.None? ==> |legacy| == 32)
    && node == s.node && s.clockHigh > 0 && !s.clockBlocked && s.clockHigh - now <= 30
    && FindRunning(s.rows).None?
    && (Holds(s.binding, next) || (Replaces(s.binding, legacy, previous) && |s.audit.events| < CAPACITY))
  }

  lemma AcceptedIsValid(previous: Option<TrustSet>, legacy: KeyId, next: TrustSet)
    requires Accepted(previous, legacy, next)
    ensures Valid(next) && (previous.Some? ==> Valid(previous.value))
  {
    hide Valid, KeptKeysBounded, NewKeysNotLegacy, Departed, Ids, Key;
  }

  lemma SameAsItself(t: TrustSet)
    ensures SameTrust(t, t)
  {
  }

  /** What a migration does to a store whose records are consistent exactly when nothing runs. */
  lemma MigrateIff(
      s: State, node: Node, legacy: PublicKey, previous: Option<TrustSet>, next: TrustSet, now: int64, stamp: int)
    requires Inv(s)
    ensures var tx := Stamped(s, MigrateTrust(s, node, legacy, previous, next, now), stamp);
            && (tx.result.Ok? <==>
                  Migratable(s, node, legacy, previous, next, now) && (stamp > 0 || Holds(s.binding, next)))
            && (tx.result.Err? ==> tx.state == s)
            && (tx.result.Ok? ==>
                  && Holds(tx.state.binding, next)
                  && tx.state == s.(binding := tx.state.binding, audit := tx.state.audit)
                  && (if Holds(s.binding, next) then tx.state == s
                      else tx.state.audit == Ledger(s.audit.events + [LocalEvent(TrustChanged)], s.audit.reserved)))
  {
    hide Inv, Accepted, RecordsConsistent, Valid, SameTrust, FindRunning;
    InvCounts(s);
    MigrationAcceptsIffIdle(s);
    if FindRunning(s.rows).None? { NothingReserved(s); }
    SameAsItself(next);
    if Accepted(previous, Sha256(legacy), next) {
      AcceptedIsValid(previous, Sha256(legacy), next);
    }
  }

  lemma NothingReserved(s: State)
    requires Inv(s) && FindRunning(s.rows).None?
    ensures s.audit.reserved == 0
  {
    hide RowOk, Decided, DistinctIds, UniqueDecisions;
    SumZero(s.rows, RunningWeight());
  }

  // ---- Runs ----

  /** What verifies after a series of steps, read off the migrations that succeeded. */
  function Successor(w: World, step: Step, current: Binding): Binding {
    match step
    case Migrate(node, legacy, previous, next, now) =>
      if w.worker.None? && Migratable(w.state, node, legacy, previous, next, now) then Installed(next) else current
    case _ => current
  }

  ghost function LastBinding(w: World, steps: seq<Step>): Binding {
    if steps == [] then w.state.binding
    else Successor(After(w, steps[..|steps| - 1]), steps[|steps| - 1], LastBinding(w, steps[..|steps| - 1]))
  }

  /** Two bindings let the same verifiers in. */
  predicate SameBinding(a: Binding, b: Binding) {
    match (a, b)
    case (Pinned(k), Pinned(l)) => k == l
    case (Installed(t), Installed(u)) => SameTrust(t, u)
    case _ => false
  }

  /** Only a migration changes what the store is bound to. */
  lemma BindingStays(w: World, step: Step)
    requires !step.Migrate?
    ensures Apply(w, step).state.binding == w.state.binding
  {
    hide Check, FlightResult, Judge, JudgedRow, Record, Sum, Prune, Find, FindRunning, ValidPolicy, CheckTask,
         ValidResult, CheckAssignment, Matches, DecodeTask, DecodeResult, InterruptedResult;
  }

  lemma {:induction false} BindingFollows(w: World, steps: seq<Step>)
    requires Good(w)
    ensures Good(After(w, steps)) && SameBinding(After(w, steps).state.binding, LastBinding(w, steps))
  {
    hide Good, SameTrust, Migratable, Apply;
    if steps == [] {
      if w.state.binding.Installed? { SameAsItself(w.state.binding.trust); }
    } else {
      var n := |steps| - 1;
      BindingFollows(w, steps[..n]);
      var w1 := After(w, steps[..n]);
      ApplyKeepsGood(w1, steps[n]);
      match steps[n]
      case Migrate(node, legacy, previous, next, now) => MigrateFollows(w1, node, legacy, previous, next, now);
      case _ => BindingStays(w1, steps[n]);
    }
  }

  lemma MigrateFollows(w: World, node: Node, legacy: PublicKey, previous: Option<TrustSet>, next: TrustSet, now: int64)
    requires Good(w)
    ensures var s' := Apply(w, Migrate(node, legacy, previous, next, now)).state;
            if w.worker.None? && Migratable(w.state, node, legacy, previous, next, now) then Holds(s'.binding, next)
            else s'.binding == w.state.binding
  {
    hide Inv, Migratable, MigrateTrust;
    MigrateIff(w.state, node, legacy, previous, next, now, 1);
  }

  /** The verifier is what the binding names: the pinned key, or a valid set equal to the installed one. */
  predicate LetsIn(b: Binding, v: Binding) {
    SameBinding(b, v) && match v case Pinned(k) => |k| == 32 case Installed(t) => Valid(t)
  }

  lemma SameTrustTransitive(a: TrustSet, b: TrustSet, c: TrustSet)
    requires SameTrust(a, b)
    ensures SameTrust(a, c) <==> SameTrust(b, c)
  {
  }

  /** Over every run, a worker of the store's node is refused for its verifier if and only if that verifier is not what
      the last successful migration installed, or the initial binding when there was none. */
  lemma OpensWithTheLastTrust(
      node: Node, binding: Binding, now: int64, steps: seq<Step>, again: Node, verifier: Binding, later: int64)
    ensures var w := After(Start(node, binding, now), steps);
            Recover(w.state, again, verifier, later).result == Err(TrustMismatch) <==>
              again == w.state.node && !LetsIn(LastBinding(Start(node, binding, now), steps), verifier)
  {
    StartIsGood(node, binding, now);
    BindingFollows(Start(node, binding, now), steps);
    var s := After(Start(node, binding, now), steps).state;
    var last := LastBinding(Start(node, binding, now), steps);
    hide After, Start, Good, LastBinding, SameTrust, Valid;
    if s.binding.Installed? && verifier.Installed? {
      SameTrustTransitive(s.binding.trust, last.trust, verifier.trust);
    }
    MismatchIff(s, again, verifier, later);
  }

  lemma MismatchIff(s: State, node: Node, v: Binding, now: int64)
    ensures Recover(s, node, v, now).result == Err(TrustMismatch) <==> node == s.node && !Matches(s.binding, v)
  {
    FinishErrors(s, now);
    hide Matches, Clock, FinishTx, Sum, DecodeTask, InterruptedResult, FindRunning, Sound;
  }

  lemma FinishErrors(s: State, now: int64)
    ensures forall s1: State, t: Task, r: TaskResult, k: Kind ::
              FinishTx(s1, t, r, k).Err? ==> FinishTx(s1, t, r, k).error != TrustMismatch
  {
    hide ValidResult, CheckAssignment, Find, Decided;
  }

  /** Over every run, exactly when a migration succeeds; it then installs the set it was given and one event, keeps
      every row, the clock and the policy, and the store opens with that set. A migration that fails changes nothing. */
  lemma MigrationsInstall(
      node: Node, binding: Binding, now: int64, steps: seq<Step>, again: Node, legacy: PublicKey,
      previous: Option<TrustSet>, next: TrustSet, later: int64, stamp: int, reopened: int64)
    ensures var s := After(Start(node, binding, now), steps).state;
            var tx := Stamped(s, MigrateTrust(s, again, legacy, previous, next, later), stamp);
            && (tx.result.Ok? <==>
                  Migratable(s, again, legacy, previous, next, later) && (stamp > 0 || Holds(s.binding, next)))
            && (tx.result.Err? ==> tx.state == s)
            && (tx.result.Ok? ==>
                  && Holds(tx.state.binding, next)
                  && tx.state == s.(binding := tx.state.binding, audit := tx.state.audit)
                  && (if Holds(s.binding, next) then tx.state == s
                      else tx.state.audit == Ledger(s.audit.events + [LocalEvent(TrustChanged)], s.audit.reserved))
                  && Recover(tx.state, again, Installed(next), reopened).result != Err(TrustMismatch))
  {
    RunIsGood(node, binding, now, steps);
    var s := After(Start(node, binding, now), steps).state;
    assert Inv(s);
    hide After, Start, Good, Inv, MigrateTrust, Recover, SameTrust;
    MigrateIff(s, again, legacy, previous, next, later, stamp);
    var tx := Stamped(s, MigrateTrust(s, again, legacy, previous, next, later), stamp);
    if tx.result.Ok? {
      MigratedSet(s, again, legacy, previous, next, later);
      MismatchIff(tx.state, again, Installed(next), reopened);
    }
  }

  lemma MigratedSet(s: State, node: Node, legacy: PublicKey, previous: Option<TrustSet>, next: TrustSet, now: int64)
    requires Migratable(s, node, legacy, previous, next, now)
    ensures Valid(next)
  {
    hide Valid, Accepted, SameTrust, FindRunning;
    AcceptedIsValid(previous, Sha256(legacy), next);
  }
}
