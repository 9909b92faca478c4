/** Matching an acknowledgment with the result it answers (internal/agent/tasks.go). */
module Acknowledgments {
  import opened Core
  import opened Protocol
  import S = ServerState

  /** Client.SubmitResult accepts an acknowledgment only for the very bytes it sent. */
  predicate AckMatches(ack: S.Ack, sent: ResultText) {
    match DecodeResult(sent)
    case None => false
    case Some(r) =>
      ack.agent == r.agent && ack.epoch == r.epoch && ack.request == r.request && ack.digest == Sha256(sent)
  }
}

/** The probe's side of result delivery, as its client runs it (internal/agent/tasks.go). */
module Agent {
  import opened Core
  import opened Protocol
  import opened Text
  import opened ProbeState
  import opened ProbeInvariants
  import opened ProbeStore
  import opened Acknowledgments
  import S = ServerState

  /** The state after the row at position i was marked delivered. */
  function Delivered(s: State, i: nat): State
    requires i < |s.rows|
  {
    s.(rows := s.rows[i := s.rows[i].(delivered := true)])
  }

  class Client {
    const store: Store

    constructor (store: Store)
      ensures this.store == store
    {
      this.store := store;
    }

    /** SubmitResult; `response` is the acknowledgment that arrived, if any did. */
    method SubmitResult(data: ResultText, response: Option<S.Ack>) returns (ack: Option<S.Ack>)
      ensures ack.Some? ==> ack == response && AckMatches(ack.value, data)
      ensures ack.Some? <==>
                response.Some? && AckMatches(response.value, data) && TextSize(data) <= MAX_DISPATCH_RESULT_BYTES
                && DecodeResult(data).value.agent == store.db.node.agent
                && DecodeResult(data).value.epoch == store.db.node.epoch
    {
      hide TextSize;
      var decoded := DecodeResult(data);
      if decoded.None? {
        return None;
      }
      var r := decoded.value;
      if r.agent != store.db.node.agent || r.epoch != store.db.node.epoch
         || TextSize(data) > MAX_DISPATCH_RESULT_BYTES {
        return None;
      }
      if response.None? {
        return None;
      }
      var a := response.value;
      if a.agent != r.agent || a.epoch != r.epoch || a.request != r.request || a.digest != Sha256(data) {
        return None;
      }
      return response;
    }

    /** flush: post the oldest undelivered result. It is marked delivered exactly when its own bytes are
        acknowledged; nothing else in the store changes. */
    method Flush(response: Option<S.Ack>) returns (ok: bool)
      requires Inv(store.db)
      modifies store
      ensures Inv(store.db)
      ensures (forall i :: 0 <= i < |old(store.db).rows| ==> !Awaiting(old(store.db).rows[i])) ==>
                ok && store.db == old(store.db)
      ensures forall i: nat :: i < |old(store.db).rows| && First(old(store.db).rows, |old(store.db).rows|, i) ==>
                var row := old(store.db).rows[i];
                && ok == (row.result.Some? && response.Some? && AckMatches(response.value, row.result.value))
                && store.db == if ok then Delivered(old(store.db), i) else old(store.db)
    {
      hide Inv, AckMatches, TextSize, TextBefore;
      var pending := store.Pending();
      if pending.value.None? {
        return true;
      }
      var data := pending.value.value;
      ghost var i: nat :| i < |store.db.rows| && First(store.db.rows, |store.db.rows|, i)
        && store.db.rows[i].result == Some(data);
      OnlyFirst(store.db.rows, i);
      RowIsDeliverable(store.db, i);
      var ack := SubmitResult(data, response);
      if ack.None? {
        return false;
      }
      AckIsForRow(store.db, i, ack.value);
      AcknowledgeKeepsInv(store.db, ack.value.request, ack.value.digest);
      var r := store.Acknowledge(ack.value.request, ack.value.digest);
      return r.Ok?;
    }
  }

  /** There is only one oldest undelivered row. */
  lemma OnlyFirst(rows: seq<Row>, i: nat)
    requires i < |rows| && First(rows, |rows|, i)
    ensures forall j: nat :: j < |rows| && First(rows, |rows|, j) ==> j == i
  {
    hide TextBefore;
    forall j: nat | j < |rows| && First(rows, |rows|, j) ensures j == i {
      if j != i {
        BeforeTransitive(rows[i], rows[j], rows[i]);
        BeforeIrreflexive(rows[i]);
      }
    }
  }

  lemma BeforeIrreflexive(r: Row)
    ensures !Before(r, r)
  {
    TextOrder(r.request, r.request, r.request);
  }

  lemma RowIsDeliverable(s: State, i: nat)
    requires Inv(s) && i < |s.rows| && s.rows[i].result.Some?
    ensures var text := s.rows[i].result.value;
            && TextSize(text) <= MAX_DISPATCH_RESULT_BYTES && DecodeResult(text).Some? && !s.rows[i].state.Running?
            && DecodeResult(text).value.agent == s.node.agent && DecodeResult(text).value.epoch == s.node.epoch
            && DecodeResult(text).value.request == s.rows[i].request && s.rows[i].resultDigest == Some(Sha256(text))
  {
    assert s.rows[i] in s.rows && RowOk(s.node, s.rows[i]);
    hide Inv, Hex, EncodedSize, ValidTask;
  }

  lemma AckIsForRow(s: State, i: nat, ack: S.Ack)
    requires Inv(s) && i < |s.rows| && s.rows[i].result.Some? && AckMatches(ack, s.rows[i].result.value)
    ensures Acknowledge(s, ack.request, ack.digest) == Tx(Delivered(s, i), Ok(()))
  {
    RowIsDeliverable(s, i);
    assert DistinctIds(s.rows);
    hide Inv, DecodeResult;
    assert Find(s.rows, ack.request) == Some(i);
  }
}
