/** The bounded audit log as the two stores see it: events in order and reserved completion slots
    (internal/audit/audit.go). Module Audit holds the table and hash chain behind this view. */
module Ledgers {
  import opened Core

  const CAPACITY := 100000

  datatype AuditError = AuditFull | BadReservation | DuplicateDecision

  datatype Ledger<+E> = Ledger(events: seq<E>, reserved: int)

  predicate Sound<E>(l: Ledger<E>) {
    l.reserved >= 0 && |l.events| + l.reserved <= CAPACITY
  }

  /** Append one event and change the number of reserved slots by `delta`. */
  function Append<E>(l: Ledger<E>, e: E, delta: int): (r: Result<Ledger<E>, AuditError>)
    ensures r.Ok? && Sound(l) ==> Sound(r.value)
    ensures r.Ok? ==> r.value.events == l.events + [e] && r.value.reserved == l.reserved + delta
  {
    if l.reserved + delta < 0 then Err(BadReservation)
    else if |l.events| + 1 + l.reserved + delta > CAPACITY then Err(AuditFull)
    else Ok(Ledger(l.events + [e], l.reserved + delta))
  }

  /** An append that gives back at least one reserved slot cannot fail, however full the log is. */
  lemma ConsumingAppendSucceeds<E>(l: Ledger<E>, e: E, delta: int)
    requires Sound(l) && delta < 0 <= l.reserved + delta
    ensures Append(l, e, delta).Ok?
  {
  }
}
