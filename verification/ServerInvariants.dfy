/** What every transaction of the server store keeps. */
module ServerInvariants {
  import opened Core
  import opened Tables
  import opened Protocol
  import opened Ledgers
  import opened Trust
  import opened Envelope
  import opened ServerState

  // ---- Accounting of reserved audit slots ----

  lemma {:induction false} SweepSlots(tasks: seq<TaskRow>, c: Sweep)
    ensures Sum(SweptRows(tasks, c), Slots()) == Sum(tasks, Slots()) - Sum(tasks, PickedSlots(c))
  {
    if tasks != [] {
      var n := |tasks| - 1;
      SweepSlots(tasks[..n], c);
      SumAppend(SweptRows(tasks[..n], c), Swept(c, tasks[n]), Slots());
    }
  }

  lemma {:induction false} SweepPending(tasks: seq<TaskRow>, c: Sweep, agent: string)
    ensures Sum(SweptRows(tasks, c), PendingOf(agent)) <= Sum(tasks, PendingOf(agent))
    ensures c == CancelNode(agent) ==> Sum(SweptRows(tasks, c), PendingOf(agent)) == 0
  {
    if tasks != [] {
      var n := |tasks| - 1;
      SweepPending(tasks[..n], c, agent);
      SumAppend(SweptRows(tasks[..n], c), Swept(c, tasks[n]), PendingOf(agent));
    }
  }

  /** Every closed row costs one event and gives back at least one slot. */
  lemma {:induction false} SweepEventCount(tasks: seq<TaskRow>, c: Sweep)
    ensures |SweepEvents(tasks, c)| <= Sum(tasks, PickedSlots(c))
  {
    if tasks != [] { SweepEventCount(tasks[..|tasks| - 1], c); }
  }

  lemma {:induction false} EndingEventCount(sessions: seq<SessionRow>, e: Ending)
    ensures |EndingEvents(sessions, e)| == |sessions| - |Remaining(sessions, e)|
  {
    if sessions != [] { EndingEventCount(sessions[..|sessions| - 1], e); }
  }

  /** Reserved slots exceed what the tables account for by `slack`; zero between transactions. */
  predicate Accounts(db: Db, slack: int) {
    Sound(db.ledger) && db.ledger.reserved == Expected(db) + slack
  }

  lemma CloseAccounts(db: Db, c: Sweep, slack: nat)
    requires Accounts(db, slack)
    ensures Accounts(Close(db, c), slack)
  {
    SweepSlots(db.tasks, c);
    SweepEventCount(db.tasks, c);
  }

  lemma EndAccounts(db: Db, e: Ending)
    requires Accounts(db, 0)
    ensures Accounts(End(db, e), 0)
  {
    EndingEventCount(db.sessions, e);
  }

  /** A note whose slot change matches what its tables changed by. */
  lemma NoteAccounts(db: Db, db1: Db, kind: Kind, subject: string, delta: int)
    requires Sound(db.ledger) && db1.ledger == db.ledger && Accounts(db1, -delta)
    ensures var r := Note(db1, kind, subject, delta);
            && (r.Ok? ==> Accounts(r.value, 0))
            && (r.Ok? <==> |db.ledger.events| + 1 + db.ledger.reserved + delta <= CAPACITY)
            && (r.Err? ==> r.error == AuditFailed(AuditFull))
  {
  }

  lemma DisableAccounts(db: Db, i: nat)
    requires Accounts(db, 0) && TasksOk(db.tasks) && i < |db.nodes| && db.nodes[i].enabled
    ensures DisableAt(db, i).Ok? && Accounts(DisableAt(db, i).value, 0)
  {
    hide TasksOk, CloseTx;
    var node := db.nodes[i];
    var db1 := db.(nodes := db.nodes[i := node.(enabled := false)]);
    SumUpdate(db.nodes, i, node.(enabled := false), EnabledNode());
    CloseAccounts(db1, CancelNode(node.agent), 1);
    SweepSucceeds(db1, CancelNode(node.agent), 1);
    var db2 := Close(db1, CancelNode(node.agent));
    NoteAccounts(db2, db2, NodeDisabled, node.agent, -1);
  }

  // ---- The task table ----

  predicate ResultOk(r: TaskRow) {
    && r.result.Some? && DecodeResult(r.result.value).Some?
    && (var x := DecodeResult(r.result.value).value;
        r.state == Terminal(x.status) && r.envelope.Some? && ResultError(r, x).None?)
  }

  /** A row agrees with its payload, is signed exactly when it was dispatched, and holds a result only when resolved
      by it. */
  predicate TaskOk(r: TaskRow) {
    && DecodeTask(r.payload).Some?
    && (var t := DecodeTask(r.payload).value;
        t.request == r.request && t.agent == r.agent && t.epoch == r.epoch && t.expiresAt == r.expiresAt)
    && (r.state.Queued? ==> r.envelope.None? && r.result.None?)
    && (r.state.Dispatched? ==> r.envelope.Some? && r.result.None?)
    && (r.result.Some? ==> ResultOk(r))
  }

  predicate DistinctRequests(tasks: seq<TaskRow>) {
    forall i, j :: 0 <= i < j < |tasks| ==> tasks[i].request != tasks[j].request
  }

  predicate DistinctAgents(nodes: seq<NodeRow>) {
    forall i, j :: 0 <= i < j < |nodes| ==> nodes[i].agent != nodes[j].agent
  }

  predicate TasksOk(tasks: seq<TaskRow>) {
    && |tasks| <= MAX_STORED_TASKS && DistinctRequests(tasks)
    && forall i :: 0 <= i < |tasks| ==> TaskOk(tasks[i])
  }

  ghost predicate EnabledFor(nodes: seq<NodeRow>, agent: string, epoch: string) {
    exists i :: 0 <= i < |nodes| && nodes[i].agent == agent && nodes[i].epoch == epoch && nodes[i].enabled
  }

  /** The node of a task: enabled while the task is unresolved, and while it is enabled a task that was
      dispatched is resolved by nothing but its result. */
  predicate NodeFor(n: NodeRow, r: TaskRow) {
    && n.agent == r.agent && n.epoch == r.epoch
    && (!r.state.Terminal? ==> n.enabled)
    && (n.enabled && r.envelope.Some? && r.result.None? ==> r.state.Dispatched?)
  }

  ghost predicate HasNode(nodes: seq<NodeRow>, r: TaskRow) {
    exists i :: 0 <= i < |nodes| && NodeFor(nodes[i], r)
  }

  ghost predicate Owned(nodes: seq<NodeRow>, tasks: seq<TaskRow>) {
    forall i :: 0 <= i < |tasks| ==> HasNode(nodes, tasks[i])
  }

  lemma UnresolvedEnabled(nodes: seq<NodeRow>, tasks: seq<TaskRow>, i: nat)
    requires Owned(nodes, tasks) && i < |tasks| && !tasks[i].state.Terminal?
    ensures EnabledFor(nodes, tasks[i].agent, tasks[i].epoch)
  {
    assert HasNode(nodes, tasks[i]);
    var k :| 0 <= k < |nodes| && NodeFor(nodes[k], tasks[i]);
    assert nodes[k].enabled;
  }

  ghost predicate Queues(tasks: seq<TaskRow>) {
    forall agent {:trigger PendingOf(agent)} :: Sum(tasks, PendingOf(agent)) <= MAX_PENDING
  }

  ghost predicate TableInv(nodes: seq<NodeRow>, tasks: seq<TaskRow>) {
    DistinctAgents(nodes) && TasksOk(tasks) && Owned(nodes, tasks) && Queues(tasks)
  }

  /** What may happen to one row: its assignment never changes, its envelope is written once, and a
      terminal row with its result is final. */
  predicate RowEvolves(r: TaskRow, r': TaskRow) {
    && r'.request == r.request && r'.agent == r.agent && r'.epoch == r.epoch && r'.payload == r.payload
    && r'.expiresAt == r.expiresAt
    && (r.envelope.Some? ==> r'.envelope == r.envelope)
    && (r'.state.Queued? ==> r.state.Queued?)
    && (r.state.Terminal? ==> r' == r)
  }

  ghost predicate History(tasks: seq<TaskRow>, tasks': seq<TaskRow>) {
    |tasks| <= |tasks'| && forall i :: 0 <= i < |tasks| ==> RowEvolves(tasks[i], tasks'[i])
  }

  lemma SweptEvolves(c: Sweep, r: TaskRow)
    ensures RowEvolves(r, Swept(c, r)) && (TaskOk(r) ==> TaskOk(Swept(c, r)))
    ensures !Swept(c, r).state.Terminal? ==> Swept(c, r) == r
  {
  }

  lemma EvolvedRequestsDistinct(tasks: seq<TaskRow>, tasks': seq<TaskRow>)
    requires DistinctRequests(tasks) && History(tasks, tasks') && |tasks'| == |tasks|
    ensures DistinctRequests(tasks')
  {
    forall i | 0 <= i < |tasks| ensures tasks'[i].request == tasks[i].request {
      assert RowEvolves(tasks[i], tasks'[i]);
    }
  }

  lemma SweptHasNode(nodes: seq<NodeRow>, c: Sweep, r: TaskRow)
    requires HasNode(nodes, r) && TaskOk(r) && !c.CancelNode?
    ensures HasNode(nodes, Swept(c, r))
  {
    var i :| 0 <= i < |nodes| && NodeFor(nodes[i], r);
    assert NodeFor(nodes[i], Swept(c, r));
  }

  lemma SweepKeepsTasks(tasks: seq<TaskRow>, c: Sweep)
    requires TasksOk(tasks) && Queues(tasks)
    ensures TasksOk(SweptRows(tasks, c)) && Queues(SweptRows(tasks, c)) && History(tasks, SweptRows(tasks, c))
  {
    hide TaskOk, RowEvolves, Swept, DistinctRequests, Sum, SweptRows;
    var tasks' := SweptRows(tasks, c);
    forall i | 0 <= i < |tasks| ensures RowEvolves(tasks[i], tasks'[i]) && TaskOk(tasks'[i]) {
      SweptEvolves(c, tasks[i]);
    }
    EvolvedRequestsDistinct(tasks, tasks');
    forall agent ensures Sum(tasks', PendingOf(agent)) <= MAX_PENDING { SweepPending(tasks, c, agent); }
  }

  lemma SweepKeepsTable(nodes: seq<NodeRow>, tasks: seq<TaskRow>, c: Sweep)
    requires TableInv(nodes, tasks) && !c.CancelNode?
    ensures TableInv(nodes, SweptRows(tasks, c)) && History(tasks, SweptRows(tasks, c))
  {
    hide HasNode, DistinctAgents, TaskOk, Swept, DistinctRequests, SweptRows, Queues, History;
    SweepKeepsTasks(tasks, c);
    forall i | 0 <= i < |tasks| ensures HasNode(nodes, Swept(c, tasks[i])) { SweptHasNode(nodes, c, tasks[i]); }
  }

  lemma QueuedRowOk(t: Task)
    requires ValidTask(t)
    ensures TaskOk(QueuedRow(t)) && QueuedRow(t).request == t.request && QueuedRow(t).agent == t.agent
            && QueuedRow(t).epoch == t.epoch
  {
  }

  lemma QueuedHasNode(nodes: seq<NodeRow>, t: Task)
    requires EnabledFor(nodes, t.agent, t.epoch)
    ensures HasNode(nodes, QueuedRow(t))
  {
    var i :| 0 <= i < |nodes| && nodes[i].agent == t.agent && nodes[i].epoch == t.epoch && nodes[i].enabled;
    assert NodeFor(nodes[i], QueuedRow(t));
  }

  lemma InsertKeepsTable(nodes: seq<NodeRow>, tasks: seq<TaskRow>, t: Task)
    requires TableInv(nodes, tasks) && ValidTask(t) && EnabledFor(nodes, t.agent, t.epoch)
    requires |tasks| < MAX_STORED_TASKS && FindTask(tasks, t.request).None?
             && Sum(tasks, PendingOf(t.agent)) < MAX_PENDING
    ensures TableInv(nodes, tasks + [QueuedRow(t)]) && History(tasks, tasks + [QueuedRow(t)])
  {
    hide HasNode, DistinctAgents, ValidTask, TaskOk, FindTask, QueuedRow, Sum;
    var tasks' := tasks + [QueuedRow(t)];
    QueuedRowOk(t);
    QueuedHasNode(nodes, t);
    hide EnabledFor;
    assert History(tasks, tasks');
    hide RowEvolves, History;
    forall agent ensures Sum(tasks', PendingOf(agent)) <= MAX_PENDING {
      SumAppend(tasks, QueuedRow(t), PendingOf(agent));
    }
  }

  lemma UpdateKeepsTable(nodes: seq<NodeRow>, tasks: seq<TaskRow>, i: nat, r': TaskRow)
    requires TableInv(nodes, tasks) && i < |tasks| && RowEvolves(tasks[i], r') && TaskOk(r')
             && (r'.result.Some? || r'.state.Dispatched?)
    ensures TableInv(nodes, tasks[i := r']) && History(tasks, tasks[i := r'])
  {
    hide HasNode, DistinctAgents, TaskOk;
    var tasks' := tasks[i := r'];
    assert HasNode(nodes, r') by { UpdatedHasNode(nodes, tasks[i], r'); }
    forall agent ensures Sum(tasks', PendingOf(agent)) <= MAX_PENDING { SumUpdate(tasks, i, r', PendingOf(agent)); }
  }

  lemma UpdatedHasNode(nodes: seq<NodeRow>, r: TaskRow, r': TaskRow)
    requires HasNode(nodes, r) && RowEvolves(r, r') && (r'.result.Some? || r'.state.Dispatched?)
    ensures HasNode(nodes, r')
  {
    var i :| 0 <= i < |nodes| && NodeFor(nodes[i], r);
    assert NodeFor(nodes[i], r');
  }

  lemma DisabledHasNode(nodes: seq<NodeRow>, i: nat, r: TaskRow)
    requires i < |nodes| && HasNode(nodes, r) && DistinctAgents(nodes)
    ensures HasNode(nodes[i := nodes[i].(enabled := false)], Swept(CancelNode(nodes[i].agent), r))
  {
    var nodes' := nodes[i := nodes[i].(enabled := false)];
    var k :| 0 <= k < |nodes| && NodeFor(nodes[k], r);
    assert nodes[k].agent == nodes[i].agent ==> k == i;
    assert NodeFor(nodes'[k], Swept(CancelNode(nodes[i].agent), r));
  }

  /** Disabling a node and closing its tasks leaves nothing unresolved behind. */
  lemma DisableKeepsTable(nodes: seq<NodeRow>, tasks: seq<TaskRow>, i: nat)
    requires TableInv(nodes, tasks) && i < |nodes|
    ensures var nodes' := nodes[i := nodes[i].(enabled := false)];
            var tasks' := SweptRows(tasks, CancelNode(nodes[i].agent));
            TableInv(nodes', tasks') && History(tasks, tasks')
  {
    hide HasNode, TaskOk, Swept, DistinctRequests, SweptRows, Queues, History;
    var nodes' := nodes[i := nodes[i].(enabled := false)];
    var c := CancelNode(nodes[i].agent);
    SweepKeepsTasks(tasks, c);
    forall k | 0 <= k < |tasks| ensures HasNode(nodes', Swept(c, tasks[k])) { DisabledHasNode(nodes, i, tasks[k]); }
  }

  lemma SameNodes(nodes: seq<NodeRow>, nodes': seq<NodeRow>, r: TaskRow)
    requires HasNode(nodes, r) && |nodes| <= |nodes'|
    requires forall i ::
               0 <= i < |nodes| ==>
                 nodes'[i].agent == nodes[i].agent && nodes'[i].epoch == nodes[i].epoch
                   && nodes'[i].enabled == nodes[i].enabled
    ensures HasNode(nodes', r)
  {
    var k :| 0 <= k < |nodes| && NodeFor(nodes[k], r);
    assert NodeFor(nodes'[k], r);
  }

  /** Changes to the node table that neither disable nor rename a node. */
  lemma NodesKeepTable(nodes: seq<NodeRow>, nodes': seq<NodeRow>, tasks: seq<TaskRow>)
    requires TableInv(nodes, tasks) && DistinctAgents(nodes') && |nodes| <= |nodes'|
    requires forall i ::
               0 <= i < |nodes| ==>
                 nodes'[i].agent == nodes[i].agent && nodes'[i].epoch == nodes[i].epoch
                   && nodes'[i].enabled == nodes[i].enabled
    ensures TableInv(nodes', tasks)
  {
    hide TasksOk, Queues, HasNode, DistinctAgents;
    forall k | 0 <= k < |tasks| ensures HasNode(nodes', tasks[k]) { SameNodes(nodes, nodes', tasks[k]); }
  }

  lemma HistoryTransitive(a: seq<TaskRow>, b: seq<TaskRow>, c: seq<TaskRow>)
    requires History(a, b) && History(b, c)
    ensures History(a, c)
  {
    hide RowEvolves;
    forall i | 0 <= i < |a| ensures RowEvolves(a[i], c[i]) { EvolvesTransitive(a[i], b[i], c[i]); }
  }

  lemma EvolvesTransitive(a: TaskRow, b: TaskRow, c: TaskRow)
    requires RowEvolves(a, b) && RowEvolves(b, c)
    ensures RowEvolves(a, c)
  {
  }

  // ---- The loops never run out of slots ----

  lemma {:induction false} SumPrefix<T>(rows: seq<T>, i: nat, w: T -> nat)
    requires i <= |rows|
    ensures Sum(rows[..i], w) <= Sum(rows, w)
  {
    if i < |rows| {
      SumPrefix(rows[..|rows| - 1], i, w);
      assert rows[..|rows| - 1][..i] == rows[..i];
    } else {
      assert rows[..i] == rows;
    }
  }

  lemma SweepSnoc(tasks: seq<TaskRow>, i: nat, c: Sweep)
    requires i < |tasks|
    ensures SweptRows(tasks[..i + 1], c) == SweptRows(tasks[..i], c) + [Swept(c, tasks[i])]
    ensures SweepEvents(tasks[..i + 1], c) == SweepEvents(tasks[..i], c)
            + if Picks(c, tasks[i]) then [SweepEvent(c, tasks[i])] else []
    ensures Sum(tasks[..i + 1], PickedSlots(c)) == Sum(tasks[..i], PickedSlots(c))
            + if Picks(c, tasks[i]) then SlotsOf(tasks[i]) else 0
  {
    hide Picks, Swept, SweepEvent, SlotsOf;
    assert tasks[..i + 1][..i] == tasks[..i];
  }

  /** What the loop that closes tasks leaves behind after i rows. */
  ghost predicate Partly(db: Db, tx: Db, c: Sweep, i: nat)
    requires i <= |db.tasks|
  {
    && tx == db.(tasks := tx.tasks, ledger := tx.ledger)
    && tx.tasks == SweptRows(db.tasks[..i], c) + db.tasks[i..]
    && tx.ledger.events == db.ledger.events + SweepEvents(db.tasks[..i], c)
    && tx.ledger.reserved == db.ledger.reserved - Sum(db.tasks[..i], PickedSlots(c))
    && Sound(tx.ledger)
  }

  lemma PartlyPicked(db: Db, tx: Db, c: Sweep, i: nat)
    requires i < |db.tasks| && Partly(db, tx, c, i) && Picks(c, db.tasks[i])
             && Sum(db.tasks, PickedSlots(c)) <= db.ledger.reserved
    ensures |tx.tasks| == |db.tasks| && tx.tasks[i] == db.tasks[i] && SlotsOf(tx.tasks[i]) > 0
    ensures var l := Append(tx.ledger, SweepEvent(c, db.tasks[i]), -(SlotsOf(db.tasks[i]) as int));
            l.Ok? && Partly(db, tx.(tasks := tx.tasks[i := Swept(c, db.tasks[i])], ledger := l.value), c, i + 1)
  {
    PickedHaveSlots(c, db.tasks[i]);
    SweepSnoc(db.tasks, i, c);
    SumPrefix(db.tasks, i + 1, PickedSlots(c));
    hide SweptRows, SweepEvents, Sum, Picks, Swept, SweepEvent, SlotsOf;
    assert |SweptRows(db.tasks[..i], c)| == i;
    assert tx.tasks[i := Swept(c, db.tasks[i])] == SweptRows(db.tasks[..i + 1], c) + db.tasks[i + 1..];
  }

  lemma PartlySkipped(db: Db, tx: Db, c: Sweep, i: nat)
    requires i < |db.tasks| && Partly(db, tx, c, i) && !Picks(c, db.tasks[i])
    ensures |tx.tasks| == |db.tasks| && tx.tasks[i] == db.tasks[i] && Partly(db, tx, c, i + 1)
  {
    UnpickedStays(c, db.tasks[i]);
    SweepSnoc(db.tasks, i, c);
    hide SweptRows, SweepEvents, Sum, Picks, Swept, SweepEvent, SlotsOf;
    assert |SweptRows(db.tasks[..i], c)| == i;
    assert tx.tasks == SweptRows(db.tasks[..i + 1], c) + db.tasks[i + 1..];
  }

  lemma CloseBegins(db: Db, c: Sweep)
    requires Sound(db.ledger)
    ensures Partly(db, db, c, 0)
  {
    assert db.tasks[..0] == [] && db.tasks[0..] == db.tasks;
  }

  lemma CloseEnds(db: Db, tx: Db, c: Sweep)
    requires Partly(db, tx, c, |db.tasks|)
    ensures tx == Close(db, c)
  {
    hide SweptRows, SweepEvents, Sum;
    assert db.tasks[..|db.tasks|] == db.tasks && db.tasks[|db.tasks|..] == [];
  }

  lemma PickedHaveSlots(c: Sweep, r: TaskRow)
    requires Picks(c, r)
    ensures SlotsOf(r) > 0
  {
  }

  lemma UnpickedStays(c: Sweep, r: TaskRow)
    requires !Picks(c, r)
    ensures Swept(c, r) == r
  {
  }

  lemma EndSnoc(sessions: seq<SessionRow>, i: nat, e: Ending)
    requires i < |sessions|
    ensures Remaining(sessions[..i + 1], e) == Remaining(sessions[..i], e)
            + if Ends(e, sessions[i]) then [] else [sessions[i]]
    ensures EndingEvents(sessions[..i + 1], e) == EndingEvents(sessions[..i], e)
            + if Ends(e, sessions[i]) then [EndingEvent(e, sessions[i])] else []
  {
    hide Ends, EndingEvent;
    assert sessions[..i + 1][..i] == sessions[..i];
  }

  lemma {:induction false} EndedSoFar(sessions: seq<SessionRow>, i: nat, e: Ending)
    requires i <= |sessions|
    ensures i - |Remaining(sessions[..i], e)| <= |sessions| - |Remaining(sessions, e)|
  {
    hide Ends;
    if i < |sessions| {
      EndedSoFar(sessions[..|sessions| - 1], i, e);
      assert sessions[..|sessions| - 1][..i] == sessions[..i];
    } else {
      assert sessions[..i] == sessions;
    }
  }

  lemma NoSessionsYet(e: Ending)
    ensures Remaining([], e) == [] && EndingEvents([], e) == []
  {
  }

  lemma SweepAffordable(db: Db, c: Sweep, slack: nat)
    requires Accounts(db, slack) && TasksOk(db.tasks)
    ensures Sound(db.ledger) && Sum(db.tasks, PickedSlots(c)) <= db.ledger.reserved
    ensures forall i :: 0 <= i < |db.tasks| ==> DecodeTask(db.tasks[i].payload).Some?
  {
    SweepSlots(db.tasks, c);
    hide DistinctRequests, ResultOk;
    forall i | 0 <= i < |db.tasks| ensures DecodeTask(db.tasks[i].payload).Some? { assert TaskOk(db.tasks[i]); }
  }

  lemma {:induction false} ClosesSoFar(db: Db, c: Sweep, n: nat)
    requires n <= |db.tasks| && Sound(db.ledger) && Sum(db.tasks, PickedSlots(c)) <= db.ledger.reserved
    requires forall i :: 0 <= i < |db.tasks| ==> DecodeTask(db.tasks[i].payload).Some?
    ensures TryClose(db, c, n).Ok? && Partly(db, TryClose(db, c, n).value, c, n)
  {
    hide DecodeTask, Sum, SweptRows, SweepEvents, Picks, Swept, Partly, Sound, Append, SweepEvent, SlotsOf;
    if n == 0 {
      CloseBegins(db, c);
    } else {
      ClosesSoFar(db, c, n - 1);
      var tx := TryClose(db, c, n - 1).value;
      if Picks(c, db.tasks[n - 1]) { PartlyPicked(db, tx, c, n - 1); } else { PartlySkipped(db, tx, c, n - 1); }
    }
  }

  lemma SweptNext(tasks: seq<TaskRow>, i: nat, c: Sweep)
    requires i < |tasks|
    ensures var rows := SweptRows(tasks[..i], c) + tasks[i..];
            && |rows| == |tasks| && rows[i] == tasks[i]
            && rows[i := Swept(c, tasks[i])] == SweptRows(tasks[..i + 1], c) + tasks[i + 1..]
  {
    hide Sum, SweptRows, SweepEvents, Picks, Swept, SweepEvent, SlotsOf;
    SweepSnoc(tasks, i, c);
    assert |SweptRows(tasks[..i], c)| == i;
  }

  lemma {:induction false} ClosedRows(db: Db, c: Sweep, n: nat)
    requires n <= |db.tasks|
    ensures TryClose(db, c, n).Ok? ==> TryClose(db, c, n).value.tasks == SweptRows(db.tasks[..n], c) + db.tasks[n..]
  {
    hide DecodeTask, Sum, SweptRows, SweepEvents, Picks, Swept, Append, SweepEvent, SlotsOf;
    if n == 0 {
      assert db.tasks[..0] == [] && SweptRows([], c) == [];
    } else {
      ClosedRows(db, c, n - 1);
      SweptNext(db.tasks, n - 1, c);
      if !Picks(c, db.tasks[n - 1]) { UnpickedStays(c, db.tasks[n - 1]); }
    }
  }

  /** Whenever closing tasks gets through, it closed exactly the picked rows. */
  lemma CloseTxShape(db: Db, c: Sweep)
    ensures CloseTx(db, c).Ok? ==>
              CloseTx(db, c).value == db.(tasks := SweptRows(db.tasks, c), ledger := CloseTx(db, c).value.ledger)
  {
    hide TryClose, SweptRows;
    ClosedRows(db, c, |db.tasks|);
    assert db.tasks[..|db.tasks|] == db.tasks && db.tasks[|db.tasks|..] == [];
  }

  lemma {:induction false} EndedRows(db: Db, e: Ending, n: nat)
    requires n <= |db.sessions|
    ensures TryEnd(db, e, n).Ok? ==> TryEnd(db, e, n).value.0 == Remaining(db.sessions[..n], e)
  {
    hide Ends, EndingEvent, Append;
    if n == 0 {
      assert db.sessions[..0] == [];
    } else {
      EndedRows(db, e, n - 1);
      assert db.sessions[..n][..n - 1] == db.sessions[..n - 1];
    }
  }

  /** Whenever ending sessions gets through, it ended exactly the selected ones. */
  lemma EndTxShape(db: Db, e: Ending)
    ensures EndTx(db, e).Ok? ==>
              EndTx(db, e).value == db.(sessions := Remaining(db.sessions, e), ledger := EndTx(db, e).value.ledger)
  {
    hide TryEnd, Remaining;
    EndedRows(db, e, |db.sessions|);
    assert db.sessions[..|db.sessions|] == db.sessions;
  }

  /** While the accounts balance, closing tasks row by row succeeds, however full the log is. */
  lemma SweepSucceeds(db: Db, c: Sweep, slack: nat)
    requires Accounts(db, slack) && TasksOk(db.tasks)
    ensures CloseTx(db, c) == Ok(Close(db, c))
  {
    hide TryClose, Partly, Close, TasksOk;
    SweepAffordable(db, c, slack);
    ClosesSoFar(db, c, |db.tasks|);
    CloseEnds(db, TryClose(db, c, |db.tasks|).value, c);
  }

  lemma {:induction false} EndsSoFar(db: Db, e: Ending, n: nat)
    requires n <= |db.sessions| && Sound(db.ledger) && |db.sessions| <= db.ledger.reserved
    ensures TryEnd(db, e, n).Ok?
    ensures var (kept, l) := TryEnd(db, e, n).value;
            && kept == Remaining(db.sessions[..n], e)
            && l.events == db.ledger.events + EndingEvents(db.sessions[..n], e)
            && l.reserved == db.ledger.reserved - (n - |kept|) && Sound(l)
  {
    hide Ends, EndingEvent, Remaining, EndingEvents;
    if n == 0 {
      NoSessionsYet(e);
      assert db.sessions[..0] == [];
    } else {
      EndsSoFar(db, e, n - 1);
      EndSnoc(db.sessions, n - 1, e);
      EndedSoFar(db.sessions, n, e);
    }
  }

  /** While the accounts balance, ending sessions one by one succeeds, however full the log is. */
  lemma EndSucceeds(db: Db, e: Ending)
    requires Accounts(db, 0)
    ensures EndTx(db, e) == Ok(End(db, e))
  {
    hide TryEnd, Remaining, EndingEvents, Sum;
    EndsSoFar(db, e, |db.sessions|);
    assert db.sessions[..|db.sessions|] == db.sessions;
  }

  // ---- Which key signs which task ----

  /** An envelope made with the private key behind `id` over exactly this payload. */
  predicate SignedBy(e: Envelope, id: KeyId, payload: Payload) {
    match e
    case Legacy(p, sig) => p == payload && sig == Signed(id.preimage, PayloadOnly(payload))
    case Versioned(v, trustId, k, p, sig) =>
      v == 2 && k == id && p == payload && sig == Signed(id.preimage, Keyed(trustId, id, payload))
    case Unparsed(_) => false
  }

  /** `signers` names the signer that was selected when each task was queued. */
  predicate RowSigned(s: Settings, r: TaskRow, signers: map<string, KeyId>) {
    && r.request in signers
    && (r.state.Queued? ==> s.keyId == Some(signers[r.request]))
    && (r.envelope.Some? ==> SignedBy(r.envelope.value, signers[r.request], r.payload))
  }

  predicate SignerBound(s: Settings, tasks: seq<TaskRow>, signers: map<string, KeyId>) {
    forall i :: 0 <= i < |tasks| ==> RowSigned(s, tasks[i], signers)
  }

  lemma SweepKeepsSigner(s: Settings, tasks: seq<TaskRow>, signers: map<string, KeyId>, c: Sweep)
    requires SignerBound(s, tasks, signers)
    ensures SignerBound(s, SweptRows(tasks, c), signers)
  {
    hide SweptRows, SignedBy;
    forall i | 0 <= i < |tasks| ensures RowSigned(s, Swept(c, tasks[i]), signers) {
      assert RowSigned(s, tasks[i], signers);
    }
  }

  lemma InsertKeepsSigner(s: Settings, tasks: seq<TaskRow>, signers: map<string, KeyId>, t: Task)
    requires SignerBound(s, tasks, signers) && FindTask(tasks, t.request).None? && s.keyId.Some?
    ensures SignerBound(s, tasks + [QueuedRow(t)], signers[t.request := s.keyId.value])
  {
    hide SignedBy, FindTask;
    var signers' := signers[t.request := s.keyId.value];
    forall i | 0 <= i < |tasks| ensures RowSigned(s, tasks[i], signers') { assert RowSigned(s, tasks[i], signers); }
  }

  lemma UpdateKeepsSigner(s: Settings, tasks: seq<TaskRow>, signers: map<string, KeyId>, i: nat, r': TaskRow)
    requires SignerBound(s, tasks, signers) && i < |tasks| && RowSigned(s, r', signers)
    ensures SignerBound(s, tasks[i := r'], signers)
  {
    hide RowSigned;
  }

  lemma SettingsKeepSigner(s: Settings, s': Settings, tasks: seq<TaskRow>, signers: map<string, KeyId>)
    requires SignerBound(s, tasks, signers) && (s'.keyId == s.keyId || s.keyId.None? || NoneQueued(tasks))
    ensures SignerBound(s', tasks, signers)
  {
    hide SignedBy;
    forall i | 0 <= i < |tasks| ensures RowSigned(s', tasks[i], signers) { assert RowSigned(s, tasks[i], signers); }
  }

  /** What the poll path signs is signed by the selected key and verifies until the task expires. */
  lemma SignTaskVerifies(s: Settings, payload: Payload, key: PublicKey, now: int64)
    requires SignTask(s, payload, key, now).Some? && DecodeTask(payload).Some?
    ensures var e := SignTask(s, payload, key, now).value;
            && SignedBy(e, Sha256(key), payload)
            && (now < DecodeTask(payload).value.expiresAt ==> EnvelopeVerifies(s, e, payload, key, now))
  {
    match s.trust
    case None => LegacySignedVerifies(payload, key, key);
    case Some(trust) => if now < DecodeTask(payload).value.expiresAt { SignedVerifies(payload, key, trust, now, now); }
  }

  // ---- Live envelopes ----

  /** Readings of one transaction never go back past its first or beyond its last. */
  predicate Ordered(at: Times) {
    at.first <= at.second <= at.third && forall i :: 0 <= i < |at.rows| ==> at.first <= at.rows[i] <= at.third
  }

  /** A live row's envelope verifies under the installed settings. */
  predicate RowLive(s: Settings, r: TaskRow, now: int64) {
    IsLive(r, now) ==>
      s.keyId.Some? && r.envelope.Some? && EnvelopeVerifies(s, r.envelope.value, r.payload, s.keyId.value.preimage, now)
  }

  predicate LiveVerified(s: Settings, tasks: seq<TaskRow>, now: int64) {
    forall i :: 0 <= i < |tasks| ==> RowLive(s, tasks[i], now)
  }

  /** A live row comes after no other task of its node that can still be delivered. */
  predicate Ahead(a: TaskRow, b: TaskRow, now: int64) {
    a.agent == b.agent && !a.state.Terminal? && IsLive(b, now) ==> a.expiresAt <= now
  }

  predicate InOrder(tasks: seq<TaskRow>, now: int64) {
    forall i, j :: 0 <= i < j < |tasks| ==> Ahead(tasks[i], tasks[j], now)
  }

  lemma EnvelopeUntilExpiry(s: Settings, e: Envelope, payload: Payload, key: PublicKey, now: int64, later: int64)
    requires EnvelopeVerifies(s, e, payload, key, now) && DecodeTask(payload).Some?
             && now <= later < DecodeTask(payload).value.expiresAt
    ensures EnvelopeVerifies(s, e, payload, key, later)
  {
    if s.trust.Some? { VerifiedUntilExpiry(e, s.trust.value, now, later); }
  }

  /** Time passing strands nothing. */
  lemma LiveLater(s: Settings, tasks: seq<TaskRow>, now: int64, later: int64)
    requires TasksOk(tasks) && LiveVerified(s, tasks, now) && InOrder(tasks, now) && now <= later
    ensures LiveVerified(s, tasks, later) && InOrder(tasks, later)
  {
    hide DecodeTask, EnvelopeVerifies, ResultOk, DistinctRequests;
    forall i | 0 <= i < |tasks| ensures RowLive(s, tasks[i], later) {
      assert TaskOk(tasks[i]) && RowLive(s, tasks[i], now);
      if IsLive(tasks[i], later) {
        EnvelopeUntilExpiry(s, tasks[i].envelope.value, tasks[i].payload, s.keyId.value.preimage, now, later);
      }
    }
    forall i, j | 0 <= i < j < |tasks| ensures Ahead(tasks[i], tasks[j], later) {
      assert Ahead(tasks[i], tasks[j], now);
    }
  }

  lemma SweepKeepsLive(s: Settings, tasks: seq<TaskRow>, c: Sweep, now: int64)
    requires LiveVerified(s, tasks, now) && InOrder(tasks, now)
    ensures LiveVerified(s, SweptRows(tasks, c), now) && InOrder(SweptRows(tasks, c), now)
  {
    hide SweptRows, EnvelopeVerifies;
    var tasks' := SweptRows(tasks, c);
    forall i | 0 <= i < |tasks| ensures RowLive(s, tasks'[i], now) { assert RowLive(s, tasks[i], now); }
    forall i, j | 0 <= i < j < |tasks| ensures Ahead(tasks'[i], tasks'[j], now) {
      assert Ahead(tasks[i], tasks[j], now);
    }
  }

  lemma InsertKeepsLive(s: Settings, tasks: seq<TaskRow>, t: Task, now: int64)
    requires LiveVerified(s, tasks, now) && InOrder(tasks, now)
    ensures LiveVerified(s, tasks + [QueuedRow(t)], now) && InOrder(tasks + [QueuedRow(t)], now)
  {
    hide EnvelopeVerifies;
  }

  lemma CloseRowKeepsLive(s: Settings, tasks: seq<TaskRow>, i: nat, r': TaskRow, now: int64)
    requires LiveVerified(s, tasks, now) && InOrder(tasks, now) && i < |tasks| && r'.state.Terminal?
    ensures LiveVerified(s, tasks[i := r'], now) && InOrder(tasks[i := r'], now)
  {
    hide EnvelopeVerifies;
  }

  /** Dispatching the first deliverable task of a node leaves it the only live one. */
  lemma DispatchKeepsLive(
      s: Settings, nodes: seq<NodeRow>, tasks: seq<TaskRow>, i: nat, e: Envelope, selectedAt: int64, now: int64)
    requires TableInv(nodes, tasks) && LiveVerified(s, tasks, now) && InOrder(tasks, now) && selectedAt <= now
    requires i < |tasks| && Next(tasks, tasks[i].agent, tasks[i].epoch, selectedAt) == Some(i) && tasks[i].state.Queued?
    requires s.keyId.Some?
             && (now < tasks[i].expiresAt ==> EnvelopeVerifies(s, e, tasks[i].payload, s.keyId.value.preimage, now))
    ensures var tasks' := tasks[i := tasks[i].(state := Dispatched, envelope := Some(e))];
            LiveVerified(s, tasks', now) && InOrder(tasks', now)
  {
    hide EnvelopeVerifies, TasksOk, Queues, Next;
    var tasks' := tasks[i := tasks[i].(state := Dispatched, envelope := Some(e))];
    forall j, k | 0 <= j < k < |tasks'| ensures Ahead(tasks'[j], tasks'[k], now) {
      assert Ahead(tasks[j], tasks[k], now);
      if k == i && tasks[j].agent == tasks[i].agent && !tasks[j].state.Terminal? {
        SameEpoch(nodes, tasks, j, i);
        assert !Deliverable(tasks[j], tasks[i].agent, tasks[i].epoch, selectedAt);
      }
    }
  }

  lemma SameEpoch(nodes: seq<NodeRow>, tasks: seq<TaskRow>, i: nat, j: nat)
    requires DistinctAgents(nodes) && Owned(nodes, tasks) && i < |tasks| && j < |tasks|
             && tasks[i].agent == tasks[j].agent
    requires !tasks[i].state.Terminal? && !tasks[j].state.Terminal?
    ensures tasks[i].epoch == tasks[j].epoch
  {
    UnresolvedEnabled(nodes, tasks, i);
    UnresolvedEnabled(nodes, tasks, j);
    var a :| 0 <= a < |nodes| && nodes[a].agent == tasks[i].agent && nodes[a].epoch == tasks[i].epoch
      && nodes[a].enabled;
    var b :| 0 <= b < |nodes| && nodes[b].agent == tasks[j].agent && nodes[b].epoch == tasks[j].epoch
      && nodes[b].enabled;
  }

  /** Installing trust that every live envelope verifies under, or switching to another of its keys, strands nothing. */
  lemma InstallKeepsLive(s: Settings, tasks: seq<TaskRow>, next: TrustSet, at: Times)
    requires TasksOk(tasks) && AllLiveVerify(tasks, next, at) && Ordered(at) && s.keyId.Some?
    ensures LiveVerified(s.(trust := Some(next)), tasks, at.third)
  {
    hide DecodeTask, ResultOk, DistinctRequests, VerifyTrusted;
    var s' := s.(trust := Some(next));
    forall i | 0 <= i < |tasks| ensures RowLive(s', tasks[i], at.third) {
      assert TaskOk(tasks[i]);
      if IsLive(tasks[i], at.third) {
        var read := RowTime(at, i);
        assert LiveVerifies(tasks[i], next, read);
        EnvelopeUntilExpiry(s', tasks[i].envelope.value, tasks[i].payload, s.keyId.value.preimage, read, at.third);
      }
    }
  }

  lemma SettingsKeepLive(s: Settings, s': Settings, tasks: seq<TaskRow>, now: int64)
    requires LiveVerified(s, tasks, now) && s'.trust == s.trust && s'.keyId.Some?
    requires s.keyId.None? || s'.keyId == s.keyId || s.trust.Some?
    ensures LiveVerified(s', tasks, now)
  {
    forall i | 0 <= i < |tasks| ensures RowLive(s', tasks[i], now) { assert RowLive(s, tasks[i], now); }
  }

  // ---- Sessions and accounts ----

  predicate DistinctUsers(users: seq<UserRow>) {
    forall i, j :: 0 <= i < j < |users| ==> users[i].id != users[j].id
  }

  predicate DistinctSessions(sessions: seq<SessionRow>) {
    forall i, j :: 0 <= i < j < |sessions| ==> sessions[i].id != sessions[j].id
  }

  /** `issued` records the account, as read before the password check, behind each session ID. */
  predicate SessionCurrent(users: seq<UserRow>, s: SessionRow, issued: map<string, UserRow>) {
    s.id in issued && issued[s.id].id == s.user && StillCurrent(users, issued[s.id])
  }

  /** At most 128 sessions in all and eight per account. */
  ghost predicate SessionBounds(sessions: seq<SessionRow>) {
    |sessions| <= MAX_SESSIONS && forall user {:trigger OwnedBy(user)} :: Sum(sessions, OwnedBy(user)) <= MAX_OWNED
  }

  ghost predicate AuthInv(users: seq<UserRow>, sessions: seq<SessionRow>, issued: map<string, UserRow>) {
    && DistinctUsers(users) && DistinctSessions(sessions) && SessionBounds(sessions) && |users| <= MAX_USERS
    && forall i :: 0 <= i < |sessions| ==> SessionCurrent(users, sessions[i], issued)
  }

  lemma {:induction false} RemainingMembers(sessions: seq<SessionRow>, e: Ending)
    ensures forall s :: s in Remaining(sessions, e) <==> s in sessions && !Ends(e, s)
  {
    hide Ends;
    if sessions != [] {
      var n := |sessions| - 1;
      RemainingMembers(sessions[..n], e);
      assert sessions == sessions[..n] + [sessions[n]];
    }
  }

  lemma {:induction false} RemainingDistinct(sessions: seq<SessionRow>, e: Ending)
    requires DistinctSessions(sessions)
    ensures DistinctSessions(Remaining(sessions, e))
  {
    if sessions != [] {
      var n := |sessions| - 1;
      RemainingDistinct(sessions[..n], e);
      RemainingMembers(sessions[..n], e);
      var rest := Remaining(sessions[..n], e);
      forall s | s in rest ensures s.id != sessions[n].id {
        var i :| 0 <= i < n && sessions[i] == s;
      }
    }
  }

  lemma {:induction false} RemainingOwned(sessions: seq<SessionRow>, e: Ending, user: string)
    ensures Sum(Remaining(sessions, e), OwnedBy(user)) <= Sum(sessions, OwnedBy(user))
  {
    if sessions != [] {
      var n := |sessions| - 1;
      RemainingOwned(sessions[..n], e, user);
      var rest := Remaining(sessions[..n], e);
      SumAppend(rest, sessions[n], OwnedBy(user));
      assert rest + [] == rest;
    }
  }

  lemma RemainingBounds(sessions: seq<SessionRow>, e: Ending)
    requires SessionBounds(sessions)
    ensures SessionBounds(Remaining(sessions, e))
  {
    hide Remaining;
    forall user ensures Sum(Remaining(sessions, e), OwnedBy(user)) <= MAX_OWNED { RemainingOwned(sessions, e, user); }
  }

  lemma AddedBounds(sessions: seq<SessionRow>, s: SessionRow)
    requires SessionBounds(sessions) && |sessions| < MAX_SESSIONS && Sum(sessions, OwnedBy(s.user)) < MAX_OWNED
    ensures SessionBounds(sessions + [s])
  {
    hide Sum;
    forall user ensures Sum(sessions + [s], OwnedBy(user)) <= MAX_OWNED { SumAppend(sessions, s, OwnedBy(user)); }
  }

  lemma TouchedBounds(sessions: seq<SessionRow>, i: nat, s: SessionRow)
    requires SessionBounds(sessions) && i < |sessions| && s.user == sessions[i].user
    ensures SessionBounds(sessions[i := s])
  {
    hide Sum;
    forall user ensures Sum(sessions[i := s], OwnedBy(user)) <= MAX_OWNED { SumUpdate(sessions, i, s, OwnedBy(user)); }
  }

  lemma EndKeepsAuth(users: seq<UserRow>, sessions: seq<SessionRow>, issued: map<string, UserRow>, e: Ending)
    requires AuthInv(users, sessions, issued)
    ensures AuthInv(users, Remaining(sessions, e), issued)
  {
    hide Remaining, SessionCurrent, DistinctSessions, DistinctUsers, SessionBounds;
    RemainingDistinct(sessions, e);
    RemainingMembers(sessions, e);
    RemainingBounds(sessions, e);
    var rest := Remaining(sessions, e);
    forall i | 0 <= i < |rest| ensures SessionCurrent(users, rest[i], issued) {
      assert rest[i] in sessions;
    }
  }

  lemma FindUserStable(users: seq<UserRow>, i: nat, u': UserRow, id: string)
    requires DistinctUsers(users) && i < |users| && u'.id == users[i].id && id != u'.id
    ensures var k, k' := FindUser(users, id), FindUser(users[i := u'], id);
            k.Some? <==> k'.Some?
    ensures var k, k' := FindUser(users, id), FindUser(users[i := u'], id);
            k.Some? ==> users[i := u'][k'.value] == users[k.value]
  {
    hide FindUser;
    var users' := users[i := u'];
    var k, k' := FindUser(users, id), FindUser(users', id);
    if k.Some? { assert users'[k.value].id == id; }
    if k'.Some? { assert users[k'.value].id == id; }
  }

  /** Changing one account after ending all its sessions leaves no session with stale authority. */
  lemma ChangeKeepsAuth(
      users: seq<UserRow>, sessions: seq<SessionRow>, issued: map<string, UserRow>, i: nat, u': UserRow)
    requires AuthInv(users, sessions, issued) && i < |users| && u'.id == users[i].id
    requires forall k :: 0 <= k < |sessions| ==> sessions[k].user != u'.id
    ensures AuthInv(users[i := u'], sessions, issued)
  {
    hide FindUser, DistinctSessions, SessionBounds;
    forall k | 0 <= k < |sessions| ensures SessionCurrent(users[i := u'], sessions[k], issued) {
      assert SessionCurrent(users, sessions[k], issued);
      FindUserStable(users, i, u', sessions[k].user);
    }
  }

  lemma AddUserKeepsAuth(users: seq<UserRow>, sessions: seq<SessionRow>, issued: map<string, UserRow>, u: UserRow)
    requires AuthInv(users, sessions, issued) && FindUser(users, u.id).None? && |users| < MAX_USERS
    ensures AuthInv(users + [u], sessions, issued)
  {
    hide DistinctSessions, SessionBounds;
    forall k | 0 <= k < |sessions| ensures SessionCurrent(users + [u], sessions[k], issued) {
      assert SessionCurrent(users, sessions[k], issued);
      assert (users + [u])[..|users|] == users;
    }
  }

  lemma LoginKeepsAuth(
      users: seq<UserRow>, sessions: seq<SessionRow>, issued: map<string, UserRow>, s: SessionRow, u: UserRow)
    requires AuthInv(users, sessions, issued) && StillCurrent(users, u) && s.user == u.id
    requires forall i :: 0 <= i < |sessions| ==> sessions[i].id != s.id
    requires |sessions| < MAX_SESSIONS && Sum(sessions, OwnedBy(s.user)) < MAX_OWNED
    ensures AuthInv(users, sessions + [s], issued[s.id := u])
  {
    hide StillCurrent, SessionBounds;
    AddedBounds(sessions, s);
    var issued' := issued[s.id := u];
    forall k | 0 <= k < |sessions| ensures SessionCurrent(users, sessions[k], issued') {
      assert SessionCurrent(users, sessions[k], issued);
    }
  }

  lemma TouchKeepsAuth(
      users: seq<UserRow>, sessions: seq<SessionRow>, issued: map<string, UserRow>, i: nat, used: int64)
    requires AuthInv(users, sessions, issued) && i < |sessions|
    ensures AuthInv(users, sessions[i := sessions[i].(lastUsed := used)], issued)
  {
    hide StillCurrent, SessionBounds;
    TouchedBounds(sessions, i, sessions[i].(lastUsed := used));
    assert SessionCurrent(users, sessions[i], issued);
  }
}
