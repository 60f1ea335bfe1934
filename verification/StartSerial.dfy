/** The interleaved commands of a start are serial: what each session can rely on survives its own
    statements and the commits of the others, and a commit is what its command does alone. */
module StartSerial {
  import opened CheckpointModel
  import opened EventProjection
  import opened StartCommand
  import opened StartRaces
  import PR = ProjectionRaces
  import G = StateGraph

  lemma ViewOfNothing(db: Database, c: Command)
    requires !c.CmdStart?
    ensures View(db, c, NO_WORK) == db
  {
    var t := db.tables;
    assert db.outbox + [] == db.outbox && t.checkpoints + [] == t.checkpoints;
    assert t.stream + [] == t.stream && t.quarantine + [] == t.quarantine;
  }

  // ----- the events of a command -----

  /** The database with an event published and applied. */
  function WithEvent(db: Database, r: OutboxRow): Database {
    var t := db.tables;
    db.(outbox := db.outbox + [r],
        tables := Tables(t.checkpoints + [AppliedRow(r)], t.stream + [EntryOf(r.event)], t.quarantine))
  }

  /** The event comes next for its aggregate. */
  predicate IsNext(rows: seq<Row>, r: OutboxRow) {
    var d := DeliveryOf(r);
    && !HasRow(rows, d.consumer, r.event.id)
    && var current := CurrentRevision(rows, d.consumer, r.event.aggregateID);
       current.Some? ==> r.event.revision == current.value + 1
  }

  predicate Plain(r: OutboxRow) {
    r.event.safe && r.event.schemaVersion == 1 && r.event.recoveryEpoch.None?
  }

  lemma PublishExactly(db: Database, r: OutboxRow)
    requires Plain(r) && !EventIDTaken(db, r.event.id) && IsNext(db.tables.checkpoints, r)
    ensures Publish(db, r.event, r.name, r.operationID, r.receiptID)
            == Result(WithEvent(db, r), Handled(VerdictApplied))
  {
  }

  /** A new event of the command has no row, neither a committed one nor an own one. */
  lemma NoRowYet(db: Database, owned: set<Lock>, rs: seq<OutboxRow>, r: OutboxRow)
    requires RowsInv(db) && QueuedInOrder(db, owned, rs + [r])
    ensures forall consumer :: !HasRow(db.tables.checkpoints + AppliedRows(rs), consumer, r.event.id)
  {
    var own := AppliedRows(rs);
    assert (rs + [r])[|rs|] == r;
    forall consumer
      ensures !HasRow(db.tables.checkpoints + own, consumer, r.event.id)
    {
      NewEventHasNoRow(db, consumer, r.event.id);
      forall k | 0 <= k < |own|
        ensures own[k].event.id != r.event.id
      {
        assert (rs + [r])[k] == rs[k];
      }
    }
  }

  lemma ClaimRevision(db: Database, c: Command)
    requires Agreement(db) && c.CmdClaim? && Complete(c.ev) && Loads(db, c.ev) && Bound(db, c.ev) && Ready(db, c)
    ensures OperationRevision(db, c.ev.operationID) == None && c.expected == 0
  {
    hide OperationInv, AppliedEvent, OutboxInv, RowsInv, NoneConfirming, CurrentRevision;
    OperationFacts(db, c.ev.operationID);
    StageOfClaim(db, c.ev);
  }

  lemma ConfirmRevisions(db: Database, c: Command)
    requires Agreement(db) && c.CmdConfirm? && Complete(c.ev) && Loads(db, c.ev) && Bound(db, c.ev) && Ready(db, c)
    ensures OperationRevision(db, c.ev.operationID) == Some(1) && BatchRevision(db, c.ev.batchID) == Some(1)
    ensures c.expected == 1
  {
    hide OperationInv, AppliedEvent, OutboxInv, RowsInv, NoneConfirming, CurrentRevision;
    OperationFacts(db, c.ev.operationID);
    StageOfConfirm(db, c.ev);
  }

  /** Each event of a command that its guards let through has the revision its aggregate expects. */
  lemma RevisionFits(db: Database, c: Command, k: nat)
    requires Agreement(db) && !c.CmdStart? && Complete(c.ev) && Loads(db, c.ev) && Bound(db, c.ev) && Ready(db, c)
    requires k < |Events(db, c)|
    ensures var r := Events(db, c)[k];
            var current := CurrentRevision(db.tables.checkpoints + AppliedRows(Events(db, c)[..k]),
                                           DeliveryOf(r).consumer,
                                           r.event.aggregateID);
            current.Some? ==> r.event.revision == current.value + 1
  {
    hide Agreement, Ready, CurrentRevision;
    var rs := Events(db, c)[..k];
    var rows := db.tables.checkpoints;
    if k == 0 {
      assert rows + AppliedRows(rs) == rows;
      if c.CmdClaim? {
        ClaimRevision(db, c);
      } else {
        ConfirmRevisions(db, c);
      }
    } else {
      ConfirmRevisions(db, c);
      var first := AppliedRow(Events(db, c)[0]);
      assert AppliedRows(rs) == [first];
      RevisionAfterRow(rows, first, OperationConsumer(db), c.ev.operationID);
      ConsumersDiffer(db.workspace, BATCH, OPERATION);
      assert BATCH[0] != OPERATION[0];
    }
  }

  /** The next event of a command is applied, whatever else has been committed. */
  lemma EventIsNext(db: Database, owned: set<Lock>, c: Command, k: nat)
    requires Agreement(db) && !c.CmdStart? && Complete(c.ev) && Loads(db, c.ev) && Bound(db, c.ev) && Ready(db, c)
    requires k < |Events(db, c)| && QueuedInOrder(db, owned, Events(db, c)[..k + 1])
    ensures IsNext(db.tables.checkpoints + AppliedRows(Events(db, c)[..k]), Events(db, c)[k])
  {
    hide Agreement, Ready, HasRow, CurrentRevision, QueuedInOrder;
    var rs, r := Events(db, c)[..k], Events(db, c)[k];
    assert Events(db, c)[..k + 1] == rs + [r];
    RevisionFits(db, c, k);
    AgreedRows(db);
    NoRowYet(db, owned, rs, r);
  }

  lemma AgreedRows(db: Database)
    requires Agreement(db)
    ensures RowsInv(db) && OutboxInv(db)
  {
  }

  // ----- a commit is what the command does alone -----

  lemma ClaimAlone(db: Database, c: Command, r: OutboxRow)
    requires c.CmdClaim? && Complete(c.ev) && Loads(db, c.ev) && Bound(db, c.ev) && Ready(db, c)
    requires Events(db, c) == [r] && Plain(r) && !EventIDTaken(db, r.event.id) && IsNext(db.tables.checkpoints, r)
    ensures ClaimRow(db, c.ev, c.expected).Some?
    ensures Execute(db, c) == Result(WithEvent(ClaimRow(db, c.ev, c.expected).value, r), FinalReply(c))
  {
    hide AcceptedApplied, HasRow, CurrentRevision, EventIDTaken, Process, Publish, IsNext;
    var x := ClaimRow(db, c.ev, c.expected).value;
    SameIDs(db, x, r.event.id);
    PublishExactly(x, r);
  }

  lemma ClaimView(db: Database, c: Command, r: OutboxRow)
    requires c.CmdClaim? && Loads(db, c.ev) && Events(db, c) == [r] && ClaimRow(db, c.ev, c.expected).Some?
    ensures View(db, c, WorkOf(db, c, 1, 1)) == WithEvent(ClaimRow(db, c.ev, c.expected).value, r)
  {
    assert [r][..1] == [r];
    assert AppliedRows([r]) == [AppliedRow(r)] && Entries([r]) == [EntryOf(r.event)];
    assert db.tables.quarantine + [] == db.tables.quarantine;
  }

  lemma ClaimCommit(db: Database, owned: set<Lock>, s: Session)
    requires Agreement(db) && s.c.CmdClaim? && Publishing(db, owned, s, 1, 1)
    ensures Execute(db, s.c) == Result(View(db, s.c, s.work), FinalReply(s.c))
  {
    hide Agreement, Ready, IsNext, Execute, View, EventIDTaken, WorkOf;
    var r := Events(db, s.c)[0];
    QueuedEvent(db, owned, s.c, 1, 0);
    assert Events(db, s.c)[..0] == [] && db.tables.checkpoints + AppliedRows([]) == db.tables.checkpoints;
    hide QueuedInOrder, HoldsRows;
    ClaimAlone(db, s.c, r);
    ClaimView(db, s.c, r);
  }

  /** The k-th of the events that a command has enqueued. */
  lemma QueuedEvent(db: Database, owned: set<Lock>, c: Command, n: nat, k: nat)
    requires Agreement(db) && !c.CmdStart? && HoldsRows(db, owned, c.ev) && Ready(db, c)
    requires k < n <= |Events(db, c)| && QueuedInOrder(db, owned, Events(db, c)[..n])
    ensures var r := Events(db, c)[k];
            && Plain(r) && !EventIDTaken(db, r.event.id)
            && IsNext(db.tables.checkpoints + AppliedRows(Events(db, c)[..k]), r)
  {
    hide Agreement, Ready, IsNext, EventIDTaken;
    var rs := Events(db, c)[..n];
    assert rs[k] == Events(db, c)[k];
    QueuedPrefix(db, owned, rs, k + 1);
    assert rs[..k + 1] == Events(db, c)[..k + 1];
    EventIsNext(db, owned, c, k);
  }

  function ConfirmedAlone(db: Database, c: Command): Option<Database>
    requires c.CmdConfirm?
  {
    match ActivateBatch(db, c.ev)
    case None => None
    case Some(x) => ConfirmRow(x, c.ev, c.expected)
  }

  lemma ConfirmAlone(db: Database, c: Command, r: OutboxRow, q: OutboxRow)
    requires c.CmdConfirm? && Complete(c.ev) && Loads(db, c.ev) && Bound(db, c.ev) && Ready(db, c)
    requires Events(db, c) == [r, q] && Plain(r) && Plain(q) && r.event.id != q.event.id
    requires !EventIDTaken(db, r.event.id) && !EventIDTaken(db, q.event.id)
    requires IsNext(db.tables.checkpoints, r) && IsNext(db.tables.checkpoints + [AppliedRow(r)], q)
    ensures ConfirmedAlone(db, c).Some?
    ensures Execute(db, c) == Result(WithEvent(WithEvent(ConfirmedAlone(db, c).value, r), q), FinalReply(c))
  {
    hide HasRow, CurrentRevision, EventIDTaken, Process, Publish, IsNext;
    var x := ConfirmedAlone(db, c).value;
    SameIDs(db, x, r.event.id);
    PublishExactly(x, r);
    var y := WithEvent(x, r);
    IDsAfterPublish(db, y, r, q.event.id);
    PublishExactly(y, q);
  }

  lemma ConfirmView(db: Database, c: Command, r: OutboxRow, q: OutboxRow)
    requires c.CmdConfirm? && Loads(db, c.ev) && Events(db, c) == [r, q] && ConfirmedAlone(db, c).Some?
    ensures View(db, c, WorkOf(db, c, 2, 2)) == WithEvent(WithEvent(ConfirmedAlone(db, c).value, r), q)
  {
    var t := db.tables;
    assert [r, q][..2] == [r, q];
    assert AppliedRows([r, q]) == [AppliedRow(r), AppliedRow(q)]
           && Entries([r, q]) == [EntryOf(r.event), EntryOf(q.event)];
    assert t.quarantine + [] == t.quarantine;
    assert t.checkpoints + [AppliedRow(r)] + [AppliedRow(q)] == t.checkpoints + [AppliedRow(r), AppliedRow(q)];
    assert t.stream + [EntryOf(r.event)] + [EntryOf(q.event)] == t.stream + [EntryOf(r.event), EntryOf(q.event)];
    assert db.outbox + [r] + [q] == db.outbox + [r, q];
  }

  lemma ConfirmCommit(db: Database, owned: set<Lock>, s: Session)
    requires Agreement(db) && s.c.CmdConfirm? && Publishing(db, owned, s, 2, 2)
    ensures Execute(db, s.c) == Result(View(db, s.c, s.work), FinalReply(s.c))
  {
    hide Agreement, Ready, IsNext, Execute, View, EventIDTaken, WorkOf;
    var rs := Events(db, s.c);
    var r, q := rs[0], rs[1];
    QueuedEvent(db, owned, s.c, 2, 0);
    QueuedEvent(db, owned, s.c, 2, 1);
    assert rs[..2][0] == r && rs[..2][1] == q;
    assert rs[..1] == [r] && rs[..0] == [];
    assert db.tables.checkpoints + AppliedRows([]) == db.tables.checkpoints && AppliedRows([r]) == [AppliedRow(r)];
    hide QueuedInOrder, HoldsRows;
    ConfirmAlone(db, s.c, r, q);
    ConfirmView(db, s.c, r, q);
  }

  lemma QueuedPrefix(db: Database, owned: set<Lock>, rs: seq<OutboxRow>, n: nat)
    requires n <= |rs| && QueuedInOrder(db, owned, rs)
    ensures QueuedInOrder(db, owned, rs[..n])
  {
    hide EventIDTaken;
  }

  lemma ReplayCommit(db: Database, owned: set<Lock>, s: Session)
    requires SessionInv(db, owned, s) && s.at.Finished? && (s.c.CmdClaim? || s.c.CmdConfirm?) && s.work == NO_WORK
    ensures Execute(db, s.c) == Result(View(db, s.c, s.work), FinalReply(s.c))
  {
    ViewOfNothing(db, s.c);
  }

  /** The tables with what the processor has written on its own. */
  lemma WrittenAlone(db: Database, c: Command, d: Delivery, current: Option<int>)
    requires !c.CmdStart? && !HasRow(db.tables.checkpoints, d.consumer, d.event.id)
    ensures var out := Decide(db.tables, d, current);
            View(db, c, Written(db, NO_WORK, d, out.verdict, current)) == db.(tables := out.tables)
  {
    var t := db.tables;
    assert db.outbox + [] == db.outbox && t.quarantine + [] == t.quarantine;
    assert t.checkpoints + [] == t.checkpoints && t.stream + [] == t.stream;
  }

  /** The acceptance of the evidence is `r`. */
  predicate AcceptsEvent(db: Database, c: Command, r: OutboxRow) {
    && c.CmdAccept? && Complete(c.ev) && Loads(db, c.ev) && Bound(db, c.ev)
    && FindAcceptance(db.outbox, c.ev.operationID, c.ev.receiptID, c.ev.batchID) == Some(r) && Plain(r)
  }

  function AcceptanceDelivery(db: Database, r: OutboxRow): Delivery {
    Delivery(r.event, BatchConsumer(db), None)
  }

  lemma AcceptanceDeduplicated(db: Database, c: Command, r: OutboxRow)
    requires AcceptsEvent(db, c, r) && HasRow(db.tables.checkpoints, BatchConsumer(db), r.event.id)
    ensures Execute(db, c) == Result(db, Handled(Deduplicated))
  {
    hide Complete, Bound, HasRow, CurrentRevision, Decide;
  }

  lemma AcceptanceDecided(db: Database, c: Command, r: OutboxRow)
    requires AcceptsEvent(db, c, r) && !HasRow(db.tables.checkpoints, BatchConsumer(db), r.event.id)
    ensures var current := CurrentRevision(db.tables.checkpoints, BatchConsumer(db), r.event.aggregateID);
            var out := Decide(db.tables, AcceptanceDelivery(db, r), current);
            !out.verdict.Raised? ==> Execute(db, c) == Result(db.(tables := out.tables), Handled(out.verdict))
  {
    hide Complete, Bound, HasRow, CurrentRevision, Decide;
  }

  lemma AcceptanceCommit(db: Database, owned: set<Lock>, s: Session, r: OutboxRow, reply: Reply)
    requires Agreement(db) && AcceptanceDone(db, owned, s, AcceptanceDelivery(db, r), reply)
    requires FindAcceptance(db.outbox, s.c.ev.operationID, s.c.ev.receiptID, s.c.ev.batchID) == Some(r)
    ensures Execute(db, s.c) == Result(View(db, s.c, s.work), reply)
  {
    hide Agreement, Execute, View, Written, Decide, HasRow, CurrentRevision, Complete, Bound, PR.KeyOfDelivery;
    AgreedRows(db);
    AcceptedEvent(db, r);
    hide RowsInv, OutboxInv;
    if HasRow(db.tables.checkpoints, BatchConsumer(db), r.event.id) {
      AcceptanceDeduplicated(db, s.c, r);
      ViewOfNothing(db, s.c);
    } else {
      AcceptanceDecided(db, s.c, r);
      WrittenAlone(db, s.c, AcceptanceDelivery(db, r),
                   CurrentRevision(db.tables.checkpoints, BatchConsumer(db), r.event.aggregateID));
    }
  }

  lemma AcceptedEvent(db: Database, r: OutboxRow)
    requires OutboxInv(db) && r in db.outbox
    ensures Plain(r)
  {
    assert OutboxRowInv(db, r);
  }

  /** What a session commits is what its command does to the committed database on its own, with the
      same reply. */
  lemma CommitIsSerial(db: Database, owned: set<Lock>, s: Session)
    requires Agreement(db) && SessionInv(db, owned, s) && s.at.Finished?
    ensures Execute(db, s.c) == Result(View(db, s.c, s.work), s.at.reply)
  {
    hide Agreement, Execute, View, Publishing, HoldsRows, AcceptanceDone;
    if s.c.CmdAccept? {
      var found := FindAcceptance(db.outbox, s.c.ev.operationID, s.c.ev.receiptID, s.c.ev.batchID);
      AcceptanceCommit(db, owned, s, found.value, s.at.reply);
    } else if s.work == NO_WORK {
      ReplayCommit(db, owned, s);
    } else if s.c.CmdClaim? {
      ClaimCommit(db, owned, s);
    } else {
      ConfirmCommit(db, owned, s);
    }
  }

  // ----- commits of the others -----

  predicate SameBinding(e: Execution, f: Execution) {
    f.receiptID == e.receiptID && f.batchID == e.batchID && f.actor == e.actor
  }

  function LockOf(row: Row): Lock {
    Fence(PR.KeyOfDelivery(Delivery(row.event, row.consumer, None)))
  }

  /** `next` is `db` after others have committed, seen by a session that owns `owned`. */
  predicate Grown(db: Database, next: Database, owned: set<Lock>) {
    && next.workspace == db.workspace
    && (forall o :: o in db.executions ==>
          o in next.executions && SameBinding(db.executions[o], next.executions[o])
          && (ExecutionRow(o) in owned ==> next.executions[o] == db.executions[o]))
    && (forall b :: b in db.batches ==>
          b in next.batches && (BatchRow(b) in owned ==> next.batches[b] == db.batches[b]))
    && (forall r :: r in db.receipts ==> r in next.receipts && next.receipts[r] == db.receipts[r])
    && db.outbox <= next.outbox
    && (forall r :: r in next.outbox && r !in db.outbox ==> OutboxKey(r.event.id) !in owned)
    && db.tables.checkpoints <= next.tables.checkpoints
    && (forall row :: row in next.tables.checkpoints[|db.tables.checkpoints|..] ==> LockOf(row) !in owned)
  }

  lemma HoldsRowsStays(db: Database, next: Database, owned: set<Lock>, ev: StartEvidence)
    requires Grown(db, next, owned) && HoldsRows(db, owned, ev)
    ensures HoldsRows(next, owned, ev)
    ensures next.executions[ev.operationID] == db.executions[ev.operationID]
    ensures next.batches[ev.batchID] == db.batches[ev.batchID]
  {
  }

  lemma AcceptedStays(db: Database, next: Database, owned: set<Lock>, operationID: string, receiptID: string,
                      batchID: string)
    requires Grown(db, next, owned) && AcceptedApplied(db, operationID, receiptID, batchID)
    ensures AcceptedApplied(next, operationID, receiptID, batchID)
  {
    var r :| r in db.outbox && IsAcceptance(r, operationID, receiptID, batchID)
             && AppliedEvent(db.tables.checkpoints, BatchConsumer(db), r.event.id);
    assert r in next.outbox;
    var rows := db.tables.checkpoints;
    var row :| row in rows && row.consumer == BatchConsumer(db) && row.event.id == r.event.id && row.status.Applied?;
    var k :| 0 <= k < |rows| && rows[k] == row;
    assert next.tables.checkpoints[k] == row;
  }

  lemma ReadyStays(db: Database, next: Database, owned: set<Lock>, c: Command)
    requires !c.CmdStart? && Grown(db, next, owned) && HoldsRows(db, owned, c.ev) && Ready(db, c)
    ensures HoldsRows(next, owned, c.ev) && Ready(next, c)
  {
    hide Grown, AcceptedApplied, HoldsRows;
    HoldsRowsStays(db, next, owned, c.ev);
    if c.CmdClaim? {
      AcceptedStays(db, next, owned, c.ev.operationID, c.ev.receiptID, c.ev.batchID);
    }
  }

  lemma NotTakenStays(db: Database, next: Database, owned: set<Lock>, id: string)
    requires Grown(db, next, owned) && !EventIDTaken(db, id) && OutboxKey(id) in owned
    ensures !EventIDTaken(next, id)
  {
  }

  lemma QueuedStays(db: Database, next: Database, owned: set<Lock>, rs: seq<OutboxRow>)
    requires Grown(db, next, owned) && QueuedInOrder(db, owned, rs)
    ensures QueuedInOrder(next, owned, rs)
  {
    hide Grown, EventIDTaken;
    forall k | 0 <= k < |rs|
      ensures !EventIDTaken(next, rs[k].event.id)
    {
      NotTakenStays(db, next, owned, rs[k].event.id);
    }
  }

  lemma PublishingStays(db: Database, next: Database, owned: set<Lock>, s: Session, queued: nat, processed: nat)
    requires Grown(db, next, owned) && Publishing(db, owned, s, queued, processed)
    ensures Publishing(next, owned, s, queued, processed) && Events(next, s.c) == Events(db, s.c)
  {
    hide Grown, QueuedInOrder, FencesHeld, Ready, HoldsRows;
    assert next.workspace == db.workspace by { GrownFacts(db, next, owned); }
    ReadyStays(db, next, owned, s.c);
    HoldsRowsStays(db, next, owned, s.c.ev);
    QueuedStays(db, next, owned, Events(db, s.c)[..queued]);
  }

  lemma GrownFacts(db: Database, next: Database, owned: set<Lock>)
    requires Grown(db, next, owned)
    ensures next.workspace == db.workspace && db.outbox <= next.outbox
  {
  }

  lemma {:induction false} FoundFirst(a: seq<OutboxRow>, b: seq<OutboxRow>, operationID: string, receiptID: string,
                                      batchID: string)
    requires a <= b && FindAcceptance(a, operationID, receiptID, batchID).Some?
    ensures FindAcceptance(b, operationID, receiptID, batchID) == FindAcceptance(a, operationID, receiptID, batchID)
  {
    assert a[0] == b[0];
    if !IsAcceptance(a[0], operationID, receiptID, batchID) {
      FoundFirst(a[1..], b[1..], operationID, receiptID, batchID);
    }
  }

  lemma AcceptingStays(db: Database, next: Database, owned: set<Lock>, s: Session, d: Delivery)
    requires Grown(db, next, owned) && Accepting(db, owned, s, d)
    ensures Accepting(next, owned, s, d)
  {
    hide Grown, HoldsRows;
    GrownFacts(db, next, owned);
    HoldsRowsStays(db, next, owned, s.c.ev);
    FoundFirst(db.outbox, next.outbox, s.c.ev.operationID, s.c.ev.receiptID, s.c.ev.batchID);
  }

  // ----- what a fence keeps out -----

  /** A delivery to this command's consumers whose event is in the outbox or not yet there at all. */
  predicate StartDelivery(db: Database, d: Delivery) {
    && d.event.workspace == db.workspace && d.consumer == Consumer(db.workspace, d.event.aggregateType)
    && (EventIDTaken(db, d.event.id) ==> exists r :: r in db.outbox && r.event == d.event)
  }

  /** A row that the delivery asks about is under its fence. */
  lemma SameFence(db: Database, row: Row, d: Delivery)
    requires Agreement(db) && row in db.tables.checkpoints && StartDelivery(db, d)
    requires row.consumer == d.consumer
    requires row.event.aggregateID == d.event.aggregateID || row.event.id == d.event.id
    ensures LockOf(row) == Fence(PR.KeyOfDelivery(d))
  {
    hide OperationsInv, NoneConfirming;
    assert RowInv(db, row);
    var r :| r in db.outbox && r.event == row.event;
    assert OutboxRowInv(db, r);
    ConsumersDiffer(db.workspace, row.event.aggregateType, d.event.aggregateType);
    if row.event.id == d.event.id {
      var q :| q in db.outbox && q.event == d.event;
      assert r == q;
    }
  }

  lemma OtherFence(db: Database, row: Row, d: Delivery)
    requires Agreement(db) && row in db.tables.checkpoints && StartDelivery(db, d)
    requires LockOf(row) != Fence(PR.KeyOfDelivery(d))
    ensures row.consumer == d.consumer ==> row.event.aggregateID != d.event.aggregateID && row.event.id != d.event.id
  {
    hide Agreement, StartDelivery, LockOf;
    if row.consumer == d.consumer && (row.event.aggregateID == d.event.aggregateID || row.event.id == d.event.id) {
      SameFence(db, row, d);
    }
  }

  lemma {:induction false} RevisionUnmoved(before: seq<Row>, more: seq<Row>, c: string, a: string)
    requires forall row :: row in more ==> !AppliedFor(row, c, a)
    ensures CurrentRevision(before + more, c, a) == CurrentRevision(before, c, a)
  {
    if more == [] {
      assert before + more == before;
    } else {
      var shorter, last := more[..|more| - 1], more[|more| - 1];
      assert before + more == (before + shorter) + [last];
      RevisionUnmoved(before, shorter, c, a);
      RevisionAfterRow(before + shorter, last, c, a);
      assert last in more;
    }
  }

  lemma {:induction false} RevisionBehind(x: seq<Row>, y: seq<Row>, own: seq<Row>, c: string, a: string)
    requires CurrentRevision(x, c, a) == CurrentRevision(y, c, a)
    ensures CurrentRevision(x + own, c, a) == CurrentRevision(y + own, c, a)
  {
    if own == [] {
      assert x + own == x && y + own == y;
    } else {
      var shorter, last := own[..|own| - 1], own[|own| - 1];
      assert x + own == (x + shorter) + [last] && y + own == (y + shorter) + [last];
      RevisionBehind(x, y, shorter, c, a);
      RevisionAfterRow(x + shorter, last, c, a);
      RevisionAfterRow(y + shorter, last, c, a);
    }
  }

  /** None of the rows that others have committed is one the delivery asks about. */
  lemma OthersElsewhere(db: Database, next: Database, owned: set<Lock>, d: Delivery)
    requires Agreement(next) && Grown(db, next, owned) && StartDelivery(next, d)
    requires Fence(PR.KeyOfDelivery(d)) in owned
    ensures forall row :: row in next.tables.checkpoints[|db.tables.checkpoints|..] && row.consumer == d.consumer
              ==> row.event.aggregateID != d.event.aggregateID && row.event.id != d.event.id
  {
    hide Agreement, StartDelivery, PR.KeyOfDelivery;
    var more := next.tables.checkpoints[|db.tables.checkpoints|..];
    forall row | row in more && row.consumer == d.consumer
      ensures row.event.aggregateID != d.event.aggregateID && row.event.id != d.event.id
    {
      assert LockOf(row) !in owned;
      hide Grown, LockOf;
      OtherFence(next, row, d);
    }
  }

  /** What a session has read behind its fence stays so. */
  lemma FencedReadsStay(db: Database, next: Database, owned: set<Lock>, own: seq<Row>, d: Delivery)
    requires Agreement(next) && Grown(db, next, owned) && StartDelivery(next, d)
    requires Fence(PR.KeyOfDelivery(d)) in owned
    ensures HasRow(next.tables.checkpoints + own, d.consumer, d.event.id)
            <==> HasRow(db.tables.checkpoints + own, d.consumer, d.event.id)
    ensures CurrentRevision(next.tables.checkpoints + own, d.consumer, d.event.aggregateID)
            == CurrentRevision(db.tables.checkpoints + own, d.consumer, d.event.aggregateID)
  {
    hide Agreement, StartDelivery, HasRow, CurrentRevision, PR.KeyOfDelivery;
    var rows := db.tables.checkpoints;
    var more := next.tables.checkpoints[|rows|..];
    GrownRows(db, next, owned);
    OthersElsewhere(db, next, owned, d);
    hide Grown;
    RevisionUnmoved(rows, more, d.consumer, d.event.aggregateID);
    RevisionBehind(rows, rows + more, own, d.consumer, d.event.aggregateID);
    NoRowAdded(rows, more, own, d.consumer, d.event.id);
  }

  lemma GrownRows(db: Database, next: Database, owned: set<Lock>)
    requires Grown(db, next, owned)
    ensures db.tables.checkpoints <= next.tables.checkpoints
    ensures next.tables.checkpoints
            == db.tables.checkpoints + next.tables.checkpoints[|db.tables.checkpoints|..]
  {
  }

  lemma NoRowAdded(rows: seq<Row>, more: seq<Row>, own: seq<Row>, consumer: string, id: string)
    requires forall row :: row in more && row.consumer == consumer ==> row.event.id != id
    ensures HasRow(rows + more + own, consumer, id) <==> HasRow(rows + own, consumer, id)
  {
    var long, short := rows + more + own, rows + own;
    if HasRow(short, consumer, id) {
      var k :| 0 <= k < |short| && short[k].consumer == consumer && short[k].event.id == id;
      assert long[if k < |rows| then k else k + |more|] == short[k];
    }
    if HasRow(long, consumer, id) {
      var k :| 0 <= k < |long| && long[k].consumer == consumer && long[k].event.id == id;
      forall j | |rows| <= j < |rows| + |more|
        ensures long[j].consumer == consumer ==> long[j].event.id != id
      {
        assert long[j] == more[j - |rows|] && more[j - |rows|] in more;
      }
      assert short[if k < |rows| then k else k - |more|] == long[k];
    }
  }

  lemma GateStays(db: Database, next: Database, owned: set<Lock>, work: Work, d: Delivery, gate: Gate)
    requires Agreement(next) && Grown(db, next, owned) && StartDelivery(next, d) && GateInv(db, owned, work, d, gate)
    ensures GateInv(next, owned, work, d, gate)
  {
    hide Agreement, Grown, StartDelivery, HasRow, CurrentRevision;
    if gate.Fenced? || gate.Rechecked? || gate.Read? {
      FencedReadsStay(db, next, owned, work.rows, d);
    }
  }

  /** The event of an acceptance is in the outbox, the one being published is not. */
  lemma AcceptanceIsStart(db: Database, owned: set<Lock>, s: Session, d: Delivery)
    requires Agreement(db) && Accepting(db, owned, s, d)
    ensures StartDelivery(db, d) && d.event.safe && d.event.schemaVersion == 1 && !Stale(d)
  {
    var r := FindAcceptance(db.outbox, s.c.ev.operationID, s.c.ev.receiptID, s.c.ev.batchID).value;
    assert OutboxRowInv(db, r);
  }

  lemma PublicationIsStart(db: Database, owned: set<Lock>, s: Session, n: nat, d: Delivery)
    requires 0 < n && Publishing(db, owned, s, n, n - 1) && d == DeliveryOf(Events(db, s.c)[n - 1])
    ensures StartDelivery(db, d)
  {
    hide Ready, HoldsRows, EventIDTaken;
    var rs := Events(db, s.c)[..n];
    assert rs[n - 1] == Events(db, s.c)[n - 1];
  }

  lemma ProcessingStays(db: Database, next: Database, owned: set<Lock>, s: Session, d: Delivery, gate: Gate)
    requires Agreement(next) && Grown(db, next, owned) && !s.c.CmdStart? && ProcessingInv(db, owned, s, d, gate)
    ensures ProcessingInv(next, owned, s, d, gate)
  {
    hide Agreement, Grown, GateInv, Publishing, Accepting, StartDelivery;
    if s.c.CmdAccept? {
      AcceptingStays(db, next, owned, s, d);
      AcceptanceIsStart(next, owned, s, d);
    } else {
      var n := |s.work.outbox|;
      PublishingStays(db, next, owned, s, n, n - 1);
      PublicationIsStart(next, owned, s, n, d);
    }
    GateStays(db, next, owned, s.work, d, gate);
  }

  lemma AcceptanceDoneStays(db: Database, next: Database, owned: set<Lock>, s: Session, d: Delivery, reply: Reply)
    requires Agreement(next) && Grown(db, next, owned) && AcceptanceDone(db, owned, s, d, reply)
    ensures AcceptanceDone(next, owned, s, d, reply)
  {
    hide Agreement, Grown, Accepting, StartDelivery, CurrentRevision;
    AcceptingStays(db, next, owned, s, d);
    AcceptanceIsStart(next, owned, s, d);
    if HasRow(db.tables.checkpoints, d.consumer, d.event.id) {
      RowStays(db, next, owned, d);
    } else {
      FencedReadsStay(db, next, owned, [], d);
      assert db.tables.checkpoints + [] == db.tables.checkpoints;
      assert next.tables.checkpoints + [] == next.tables.checkpoints;
    }
  }

  lemma RowStays(db: Database, next: Database, owned: set<Lock>, d: Delivery)
    requires Grown(db, next, owned) && HasRow(db.tables.checkpoints, d.consumer, d.event.id)
    ensures HasRow(next.tables.checkpoints, d.consumer, d.event.id)
  {
    var rows := db.tables.checkpoints;
    var k :| 0 <= k < |rows| && rows[k].consumer == d.consumer && rows[k].event.id == d.event.id;
    assert next.tables.checkpoints[k] == rows[k];
  }

  lemma FinishedStays(db: Database, next: Database, owned: set<Lock>, s: Session, reply: Reply)
    requires Agreement(next) && Grown(db, next, owned) && FinishedInv(db, owned, s, reply)
    ensures FinishedInv(next, owned, s, reply)
  {
    hide Agreement, Grown, Publishing, AcceptanceDone, HoldsRows;
    match s.c
    case CmdAccept(ev) =>
      var r := FindAcceptance(db.outbox, ev.operationID, ev.receiptID, ev.batchID).value;
      GrownFacts(db, next, owned);
      FoundFirst(db.outbox, next.outbox, ev.operationID, ev.receiptID, ev.batchID);
      AcceptanceDoneStays(db, next, owned, s, Delivery(r.event, BatchConsumer(db), None), reply);
    case CmdClaim(ev, _, _, _) =>
      if Publishing(db, owned, s, 1, 1) {
        PublishingStays(db, next, owned, s, 1, 1);
      } else {
        HoldsRowsStays(db, next, owned, ev);
      }
    case CmdConfirm(ev, _, _, _, _) =>
      if Publishing(db, owned, s, 2, 2) {
        PublishingStays(db, next, owned, s, 2, 2);
      } else {
        HoldsRowsStays(db, next, owned, ev);
      }
  }

  /** What a session relies on survives every commit of the others. */
  lemma SessionStays(db: Database, next: Database, owned: set<Lock>, s: Session)
    requires Agreement(next) && Grown(db, next, owned) && SessionInv(db, owned, s)
    ensures SessionInv(next, owned, s)
  {
    hide Agreement, Grown, Publishing, HoldsRows, Ready, ProcessingInv, FinishedInv;
    match s.at
    case Loaded(_, _) => HoldsRowsStays(db, next, owned, s.c.ev);
    case Cleared => ReadyStays(db, next, owned, s.c);
    case Activated => ReadyStays(db, next, owned, s.c);
    case ToPublish => PublishingStays(db, next, owned, s, |s.work.outbox|, |s.work.outbox|);
    case Processing(d, gate) => ProcessingStays(db, next, owned, s, d, gate);
    case Finished(reply) => FinishedStays(db, next, owned, s, reply);
    case _ =>
  }

  // ----- the commits -----

  lemma WrittenRowsAreFenced(db: Database, owned: set<Lock>, s: Session)
    requires SessionInv(db, owned, s) && s.at.Finished?
    ensures forall row :: row in s.work.rows ==> LockOf(row) in owned
    ensures forall r :: r in s.work.outbox ==> OutboxKey(r.event.id) in owned
  {
    hide Ready, HoldsRows, CurrentRevision;
    if !s.c.CmdAccept? && s.work != NO_WORK {
      var n := if s.c.CmdClaim? then 1 else 2;
      var rs := Events(db, s.c)[..n];
      assert Publishing(db, owned, s, n, n);
      forall row | row in s.work.rows
        ensures LockOf(row) in owned
      {
        var k :| 0 <= k < |rs| && s.work.rows[k] == row;
        assert row == AppliedRow(rs[k]);
      }
    }
  }

  lemma WrittenRowsAreLocked(db: Database, owned: set<Lock>, s: Session)
    requires SessionInv(db, owned, s) && s.at.Finished?
    ensures s.work.execution.Some? ==>
              && s.c.ev.operationID in db.executions && ExecutionRow(s.c.ev.operationID) in owned
              && SameBinding(db.executions[s.c.ev.operationID], s.work.execution.value)
    ensures s.work.batch.Some? ==> BatchRow(s.c.ev.batchID) in owned
  {
    hide CurrentRevision, QueuedInOrder, FencesHeld, AcceptedApplied;
  }

  /** A commit is growth to everybody else. */
  lemma CommitGrows(db: Database, owned: set<Lock>, s: Session, others: set<Lock>)
    requires SessionInv(db, owned, s) && s.at.Finished? && owned !! others
    ensures Grown(db, View(db, s.c, s.work), others)
  {
    WrittenRowsAreFenced(db, owned, s);
    WrittenRowsAreLocked(db, owned, s);
    hide SessionInv;
    var next := View(db, s.c, s.work);
    assert next.tables.checkpoints[|db.tables.checkpoints|..] == s.work.rows;
    forall r | r in next.outbox && r !in db.outbox
      ensures r in s.work.outbox
    {
    }
  }

  lemma StartGrows(db: Database, new': NewStart, safe: bool, others: set<Lock>)
    requires OutboxKey(new'.eventID) !in others
    ensures Grown(db, StartBatch(db, new', safe).db, others)
  {
    assert db.tables.checkpoints[|db.tables.checkpoints|..] == [];
  }

  // ----- a session's own statements -----

  /** Where a statement may lead: on in order, or to an end that is no broken promise. */
  predicate LeadsOn(db: Database, owned: set<Lock>, c: Command, m: Move) {
    && (m.at.Ended? ==> !m.at.reply.CasFailed? && !m.at.reply.NotApplied?)
    && (!m.at.Ended? ==> SessionInv(db, owned + m.needs, Session(c, m.at, m.work)))
  }

  lemma LoadLeadsOn(db: Database, owned: set<Lock>, s: Session)
    requires SessionInv(db, owned, s) && s.at.Begun?
    ensures LeadsOn(db, owned, s.c, Next(db, s))
  {
    hide AcceptedApplied;
  }

  lemma LookupLeadsOn(db: Database, owned: set<Lock>, s: Session)
    requires Agreement(db) && SessionInv(db, owned, s) && s.at.Loaded?
    ensures LeadsOn(db, owned, s.c, Next(db, s))
  {
    hide AcceptedApplied, Agreement, CurrentRevision, HasRow;
    ViewOfNothing(db, s.c);
    var m := Next(db, s);
    assert owned + {} == owned;
    if s.c.CmdAccept? {
      var found := FindAcceptance(db.outbox, s.c.ev.operationID, s.c.ev.receiptID, s.c.ev.batchID);
      if found.Some? {
        AcceptanceIsStart(db, owned, s, Delivery(found.value.event, BatchConsumer(db), None));
      }
    }
  }

  /** The compare-and-sets find the rows as they were loaded. */
  lemma UpdateLeadsOn(db: Database, owned: set<Lock>, s: Session)
    requires SessionInv(db, owned, s) && (s.at.Cleared? || s.at.Activated?)
    ensures LeadsOn(db, owned, s.c, Next(db, s))
  {
    hide AcceptedApplied, EventIDTaken;
    var t := db.tables;
    assert db.outbox + [] == db.outbox && t.checkpoints + [] == t.checkpoints;
    assert t.stream + [] == t.stream && t.quarantine + [] == t.quarantine;
    assert Events(db, s.c)[..0] == [];
  }

  /** The next event is enqueued, and its key is held from then on. */
  lemma EventEnqueued(db: Database, owned: set<Lock>, s: Session)
    requires s.at.ToPublish? && Publishing(db, owned, s, |s.work.outbox|, |s.work.outbox|)
    requires Next(db, s).at.Processing?
    ensures var n, m := |s.work.outbox|, Next(db, s);
            && !s.c.CmdAccept? && n < |Events(db, s.c)| && m.at == Processing(DeliveryOf(Events(db, s.c)[n]), Entered)
            && |m.work.outbox| == n + 1
            && Publishing(db, owned + m.needs, Session(s.c, m.at, m.work), n + 1, n)
  {
    hide Ready, Complete, Loads, Bound, EventIDTaken, QueuedInOrder;
    var n, events := |s.work.outbox|, Events(db, s.c);
    assert Events(View(db, s.c, s.work), s.c) == events;
    hide View;
    NewKey(db, owned, s, events[n]);
    assert events[..n + 1] == events[..n] + [events[n]];
  }

  /** There is nothing left to enqueue, or the next event cannot be. */
  lemma EnqueueEnds(db: Database, owned: set<Lock>, s: Session)
    requires !s.c.CmdStart? && s.at.ToPublish? && Publishing(db, owned, s, |s.work.outbox|, |s.work.outbox|)
    requires !Next(db, s).at.Processing?
    ensures LeadsOn(db, owned, s.c, Next(db, s))
  {
    hide Ready, Complete, Loads, Bound, EventIDTaken, QueuedInOrder, FencesHeld;
    assert Events(View(db, s.c, s.work), s.c) == Events(db, s.c);
    hide View;
    assert owned + {} == owned;
  }

  lemma EnqueueLeadsOn(db: Database, owned: set<Lock>, s: Session)
    requires !s.c.CmdStart? && s.at.ToPublish? && Publishing(db, owned, s, |s.work.outbox|, |s.work.outbox|)
    ensures LeadsOn(db, owned, s.c, Next(db, s))
  {
    hide Publishing, Next, LeadsOn, View, Events;
    if Next(db, s).at.Processing? {
      EventEnqueued(db, owned, s);
      InsideLeadsOn(db, owned, s.c, Next(db, s));
    } else {
      EnqueueEnds(db, owned, s);
    }
  }

  lemma NewKey(db: Database, owned: set<Lock>, s: Session, r: OutboxRow)
    requires !s.c.CmdStart? && QueuedInOrder(db, owned, s.work.outbox) && r.event.safe
    requires !EventIDTaken(View(db, s.c, s.work), r.event.id)
    ensures QueuedInOrder(db, owned + {OutboxKey(r.event.id)}, s.work.outbox + [r])
  {
    var view := db.outbox + s.work.outbox;
    forall k | 0 <= k < |s.work.outbox|
      ensures s.work.outbox[k].event.id != r.event.id
    {
      assert s.work.outbox[k] in view;
    }
    forall q | q in db.outbox
      ensures q.event.id != r.event.id
    {
      assert q in view;
    }
  }

  /** The session is inside the processor, in order. */
  predicate Inside(db: Database, owned: set<Lock>, s: Session) {
    !s.c.CmdStart? && s.at.Processing? && ProcessingInv(db, owned, s, s.at.d, s.at.gate)
  }

  lemma InsideIsSession(db: Database, owned: set<Lock>, s: Session)
    ensures s.at.Processing? ==> (Inside(db, owned, s) <==> SessionInv(db, owned, s))
  {
    hide ProcessingInv;
  }

  /** The next move stays inside the processor. */
  lemma InsideLeadsOn(db: Database, owned: set<Lock>, c: Command, m: Move)
    requires m.at.Processing? && Inside(db, owned + m.needs, Session(c, m.at, m.work))
    ensures LeadsOn(db, owned, c, m)
  {
    hide Inside, SessionInv;
    InsideIsSession(db, owned + m.needs, Session(c, m.at, m.work));
  }

  lemma ProcessLeadsOn(db: Database, owned: set<Lock>, s: Session)
    requires Agreement(db) && Inside(db, owned, s)
    ensures LeadsOn(db, owned, s.c, Next(db, s))
  {
    hide Agreement, Inside, LeadsOn, Next;
    if s.c.CmdAccept? {
      AcceptLeadsOn(db, owned, s);
    } else {
      PublishLeadsOn(db, owned, s);
    }
  }

  lemma AcceptLeadsOn(db: Database, owned: set<Lock>, s: Session)
    requires Agreement(db) && Inside(db, owned, s) && s.c.CmdAccept?
    ensures LeadsOn(db, owned, s.c, Next(db, s))
  {
    hide Agreement, Complete, Loads, Bound, CurrentRevision, StartDelivery, HasRow, PR.KeyOfDelivery;
    ViewOfNothing(db, s.c);
    AcceptanceIsStart(db, owned, s, s.at.d);
    assert owned + {} == owned;
    assert db.tables.checkpoints + [] == db.tables.checkpoints;
  }

  lemma OwnsMore(db: Database, owned: set<Lock>, more: set<Lock>, s: Session, t: Session, queued: nat, processed: nat)
    requires Publishing(db, owned, s, queued, processed) && t.c == s.c && t.work == s.work
    ensures Publishing(db, owned + more, t, queued, processed)
  {
    hide Ready, Complete, Loads, Bound, EventIDTaken;
  }

  /** A publication finds no row and the revision before its own: it is applied. */
  lemma PublishLeadsOn(db: Database, owned: set<Lock>, s: Session)
    requires Agreement(db) && Inside(db, owned, s) && !s.c.CmdAccept?
    ensures LeadsOn(db, owned, s.c, Next(db, s))
  {
    var n := |s.work.outbox|;
    hide Ready, EventIDTaken, FencesHeld, IsNext, LeadsOn, Next, Agreement;
    EventIsNext(db, owned, s.c, n - 1);
    hide Inside;
    if s.at.gate.Read? {
      PublicationIsApplied(db, owned, s);
    } else {
      PublicationGoesOn(db, owned, s);
    }
  }

  /** A publication without a row goes to the next gate, and what that gate promises holds. */
  lemma GateOpens(db: Database, owned: set<Lock>, s: Session, d: Delivery, gate: Gate)
    requires !s.c.CmdStart? && !s.c.CmdAccept? && !gate.Read? && GateInv(db, owned, s.work, d, gate)
    requires !HasRow(db.tables.checkpoints + s.work.rows, d.consumer, d.event.id)
    ensures var m := ProcessNext(View(db, s.c, s.work), s, d, gate);
            && m.at.Processing? && m.at.d == d && m.work == s.work
            && GateInv(db, owned + m.needs, m.work, d, m.at.gate)
  {
    hide HasRow, CurrentRevision, PR.KeyOfDelivery;
  }

  lemma PublicationGate(db: Database, owned: set<Lock>, s: Session)
    requires Inside(db, owned, s) && !s.c.CmdAccept?
    requires var n := |s.work.outbox|; n > 0 && IsNext(db.tables.checkpoints + s.work.rows, Events(db, s.c)[n - 1])
    ensures GateInv(db, owned, s.work, s.at.d, s.at.gate)
    ensures !HasRow(db.tables.checkpoints + s.work.rows, s.at.d.consumer, s.at.d.event.id)
  {
    hide GateInv, HasRow, Publishing, Events, CurrentRevision;
  }

  lemma StillInside(db: Database, owned: set<Lock>, s: Session, m: Move)
    requires Inside(db, owned, s) && !s.c.CmdAccept? && m.at.Processing? && m.at.d == s.at.d && m.work == s.work
    requires GateInv(db, owned + m.needs, m.work, m.at.d, m.at.gate)
    ensures Inside(db, owned + m.needs, Session(s.c, m.at, m.work))
  {
    hide GateInv, Publishing, Events, DeliveryOf;
    var n := |s.work.outbox|;
    OwnsMore(db, owned, m.needs, s, Session(s.c, m.at, m.work), n, n - 1);
  }

  lemma NextInside(db: Database, s: Session)
    requires !s.c.CmdStart? && s.at.Processing?
    ensures Next(db, s) == ProcessNext(View(db, s.c, s.work), s, s.at.d, s.at.gate)
  {
    hide ProcessNext, View;
  }

  lemma PublicationGoesOn(db: Database, owned: set<Lock>, s: Session)
    requires Inside(db, owned, s) && !s.at.gate.Read? && !s.c.CmdAccept?
    requires var n := |s.work.outbox|; n > 0 && IsNext(db.tables.checkpoints + s.work.rows, Events(db, s.c)[n - 1])
    ensures LeadsOn(db, owned, s.c, Next(db, s))
  {
    PublicationGate(db, owned, s);
    NextInside(db, s);
    hide ProcessingInv, HasRow, GateInv, ProcessNext, View, LeadsOn, IsNext, Next;
    GateOpens(db, owned, s, s.at.d, s.at.gate);
    StillInside(db, owned, s, Next(db, s));
    InsideLeadsOn(db, owned, s.c, Next(db, s));
  }

  /** A publication that reads the revision before its own writes its row and its entry. */
  lemma ReadMove(v: Database, s: Session, r: OutboxRow, current: Option<int>)
    requires !s.c.CmdStart? && !s.c.CmdAccept? && Plain(r)
    requires !HasRow(v.tables.checkpoints, DeliveryOf(r).consumer, r.event.id)
    requires current.Some? ==> r.event.revision == current.value + 1
    ensures var work := s.work.(rows := s.work.rows + [AppliedRow(r)], stream := s.work.stream + [EntryOf(r.event)]);
            ProcessNext(v, s, DeliveryOf(r), Read(current))
            == Move(ToPublish, work, {StreamFence(r.event.workspace)})
  {
    hide HasRow, Consumer;
  }

  lemma WorkGrows(db: Database, c: Command, n: nat)
    requires !c.CmdStart? && c.ev.operationID in db.executions && 0 < n <= |Events(db, c)|
    ensures var r, work := Events(db, c)[n - 1], WorkOf(db, c, n, n - 1);
            WorkOf(db, c, n, n)
            == work.(rows := work.rows + [AppliedRow(r)], stream := work.stream + [EntryOf(r.event)])
  {
    var rs := Events(db, c);
    assert rs[..n] == rs[..n - 1] + [rs[n - 1]];
    AppliedToo(rs[..n - 1], rs[n - 1]);
    hide Events, AppliedRow;
  }

  lemma ViewRows(db: Database, c: Command, work: Work)
    requires !c.CmdStart?
    ensures View(db, c, work).tables.checkpoints == db.tables.checkpoints + work.rows
  {
  }

  /** What a session knows that is about to write its publication. */
  lemma PublicationRead(db: Database, owned: set<Lock>, s: Session)
    requires Inside(db, owned, s) && s.at.gate.Read? && !s.c.CmdAccept?
    requires var n := |s.work.outbox|; n > 0 && IsNext(db.tables.checkpoints + s.work.rows, Events(db, s.c)[n - 1])
    ensures var n := |s.work.outbox|;
            && s.c.ev.operationID in db.executions && n <= |Events(db, s.c)|
            && s.at.d == DeliveryOf(Events(db, s.c)[n - 1]) && Plain(Events(db, s.c)[n - 1])
            && s.work == WorkOf(db, s.c, n, n - 1)
            && (s.at.gate.current.Some? ==> Events(db, s.c)[n - 1].event.revision == s.at.gate.current.value + 1)
  {
    hide Ready, Complete, Bound, CurrentRevision, HasRow, EventIDTaken, FencesHeld, PR.KeyOfDelivery, WorkOf;
    var n := |s.work.outbox|;
    assert Events(db, s.c)[..n][n - 1] == Events(db, s.c)[n - 1];
  }

  lemma PublicationMove(db: Database, owned: set<Lock>, s: Session)
    requires Inside(db, owned, s) && s.at.gate.Read? && !s.c.CmdAccept?
    requires var n := |s.work.outbox|; n > 0 && IsNext(db.tables.checkpoints + s.work.rows, Events(db, s.c)[n - 1])
    ensures var n := |s.work.outbox|;
            Next(db, s) == Move(ToPublish, WorkOf(db, s.c, n, n), {StreamFence(s.at.d.event.workspace)})
  {
    PublicationRead(db, owned, s);
    PublicationGate(db, owned, s);
    ViewRows(db, s.c, s.work);
    hide ProcessingInv, GateInv, View, CurrentRevision, HasRow, IsNext, Events, ProcessNext, WorkOf, AppliedRow;
    var n := |s.work.outbox|;
    var r, v := Events(db, s.c)[n - 1], View(db, s.c, s.work);
    ReadMove(v, s, r, s.at.gate.current);
    WorkGrows(db, s.c, n);
  }

  lemma PublicationIsApplied(db: Database, owned: set<Lock>, s: Session)
    requires Inside(db, owned, s) && s.at.gate.Read? && !s.c.CmdAccept?
    requires var n := |s.work.outbox|; n > 0 && IsNext(db.tables.checkpoints + s.work.rows, Events(db, s.c)[n - 1])
    ensures LeadsOn(db, owned, s.c, Next(db, s))
  {
    PublicationMove(db, owned, s);
    hide SessionInv, Ready, HoldsRows, CurrentRevision, HasRow, IsNext, Next, QueuedInOrder, FencesHeld, WorkOf,
        LeadsOn;
    var n, rs := |s.work.outbox|, Events(db, s.c);
    assert rs[..n] == rs[..n - 1] + [rs[n - 1]];
    OneMoreFence(owned, rs[..n - 1], rs[n - 1]);
    Queued(db, s.c, n);
    PublishingLeadsOn(db, owned, s.c, WorkOf(db, s.c, n, n), n, {StreamFence(s.at.d.event.workspace)});
  }

  lemma PublishingLeadsOn(db: Database, owned: set<Lock>, c: Command, work: Work, n: nat, needs: set<Lock>)
    requires Publishing(db, owned, Session(c, ToPublish, work), n, n) && |work.outbox| == n
    ensures LeadsOn(db, owned, c, Move(ToPublish, work, needs))
  {
    OwnsMore(db, owned, needs, Session(c, ToPublish, work), Session(c, ToPublish, work), n, n);
    hide Publishing;
  }

  lemma OneMoreFence(owned: set<Lock>, rs: seq<OutboxRow>, r: OutboxRow)
    requires FencesHeld(owned, rs) && Fence(PR.KeyOfDelivery(DeliveryOf(r))) in owned
    ensures FencesHeld(owned, rs + [r])
  {
  }

  lemma Queued(db: Database, c: Command, n: nat)
    requires !c.CmdStart? && c.ev.operationID in db.executions && n <= |Events(db, c)|
    ensures |WorkOf(db, c, n, n).outbox| == n
  {
  }

  lemma {:induction false} AppliedToo(rs: seq<OutboxRow>, r: OutboxRow)
    ensures AppliedRows(rs + [r]) == AppliedRows(rs) + [AppliedRow(r)]
    ensures Entries(rs + [r]) == Entries(rs) + [EntryOf(r.event)]
  {
  }

  lemma NextLeadsOn(db: Database, owned: set<Lock>, s: Session)
    requires Agreement(db) && SessionInv(db, owned, s) && Busy(s)
    ensures LeadsOn(db, owned, s.c, Next(db, s))
  {
    hide Agreement, LeadsOn, Next;
    match s.at
    case Begun => LoadLeadsOn(db, owned, s);
    case Loaded(_, _) => LookupLeadsOn(db, owned, s);
    case ToPublish => EnqueueLeadsOn(db, owned, s);
    case Processing(_, _) =>
      InsideIsSession(db, owned, s);
      ProcessLeadsOn(db, owned, s);
    case _ => UpdateLeadsOn(db, owned, s);
  }

  // ----- the processor's condition -----

  /** Deliveries of start events to the consumers of their workspace and type. */
  predicate ForStart(d: Delivery) {
    && (d.event.aggregateType == OPERATION || d.event.aggregateType == BATCH)
    && d.consumer == Consumer(d.event.workspace, d.event.aggregateType)
  }

  /** Neither type ends like the other, so a consumer's name tells workspace and type. */
  lemma ConsumerTellsHome(d: Delivery, e: Delivery)
    requires ForStart(d) && ForStart(e) && d.consumer == e.consumer
    ensures d.event.workspace == e.event.workspace && d.event.aggregateType == e.event.aggregateType
  {
    var p := "p8-admin-execution:";
    var x, y := d.event.workspace, e.event.workspace;
    var s, t := d.event.aggregateType, e.event.aggregateType;
    var name := d.consumer;
    assert name == p + x + ":" + s && name == p + y + ":" + t;
    assert name[|name| - 1] == s[|s| - 1] == t[|t| - 1];
    assert OPERATION[|OPERATION| - 1] == 'n' && BATCH[|BATCH| - 1] == 'h';
    assert |x| == |y|;
    MiddleOf(p, x, ":" + s);
    MiddleOf(p, y, ":" + t);
    assert p + x + (":" + s) == name && p + y + (":" + t) == name;
  }

  lemma MiddleOf(p: string, x: string, s: string)
    ensures (p + x + s)[|p|..|p| + |x|] == x
  {
  }

  /** The consumers of the start commands meet the condition under which racing transactions are
      serial, as long as an event identifier names one event. */
  lemma StartConsumersAreKeyed(f: PR.Family)
    requires forall d :: f(d) ==> ForStart(d)
    requires forall d, e :: f(d) && f(e) && d.event.id == e.event.id ==> d.event == e.event
    ensures PR.Keyed(f)
  {
    forall d, e | f(d) && f(e) && PR.Contend(d, e)
      ensures PR.KeyOfDelivery(d) == PR.KeyOfDelivery(e)
    {
      ConsumerTellsHome(d, e);
    }
  }

  // ----- worlds -----

  ghost predicate Inv(w: World, workspace: string) {
    && w.db == ExecuteAll(EmptyDatabase(workspace), w.done)
    && forall i :: i in w.sessions ==> SessionInv(w.db, OwnedBy(w, i), w.sessions[i])
  }

  lemma DoneAgrees(w: World, workspace: string)
    requires Inv(w, workspace)
    ensures Agreement(w.db)
  {
    hide Agreement;
    StartCommandAgreement(workspace, w.done, CmdStart(NewStart("", "", "", "", ""), false));
  }

  lemma OneMoreDone(workspace: string, done: seq<Command>, c: Command)
    ensures ExecuteAll(EmptyDatabase(workspace), done + [c])
            == Execute(ExecuteAll(EmptyDatabase(workspace), done), c).db
  {
    hide Execute;
    assert (done + [c])[..|done|] == done;
  }

  lemma RunKeepsInv(w: World, workspace: string, i: nat)
    requires Inv(w, workspace) && Enabled(w, Run(i))
    ensures Inv(Apply(w, Run(i)), workspace)
  {
    hide SessionInv, Next, ExecuteAll;
    DoneAgrees(w, workspace);
    var s, m, v := w.sessions[i], Next(w.db, w.sessions[i]), Apply(w, Run(i));
    NextLeadsOn(w.db, OwnedBy(w, i), s);
    forall j | j in v.sessions
      ensures SessionInv(v.db, OwnedBy(v, j), v.sessions[j])
    {
      if j != i {
        assert OwnedBy(v, j) == OwnedBy(w, j);
      } else if m.at.Ended? {
        EndedInv(v.db, OwnedBy(v, i), s.c, m.at.reply);
      } else {
        assert OwnedBy(v, i) == OwnedBy(w, i) + m.needs;
      }
    }
  }

  lemma EndedInv(db: Database, owned: set<Lock>, c: Command, reply: Reply)
    requires !c.CmdStart? && !reply.CasFailed? && !reply.NotApplied?
    ensures SessionInv(db, owned, Session(c, Ended(reply), NO_WORK))
  {
  }

  lemma CommitKeepsInv(w: World, workspace: string, i: nat)
    requires Inv(w, workspace) && Enabled(w, Commit(i))
    ensures Inv(Apply(w, Commit(i)), workspace)
  {
    hide SessionInv, ExecuteAll, View, Execute, Agreement, Grown;
    var s, v := w.sessions[i], Apply(w, Commit(i));
    DoneAgrees(w, workspace);
    CommitIsSerial(w.db, OwnedBy(w, i), s);
    OneMoreDone(workspace, w.done, s.c);
    CommandKeepsAgreement(w.db, s.c);
    forall j | j in v.sessions
      ensures SessionInv(v.db, OwnedBy(v, j), v.sessions[j])
    {
      if j == i {
        EndedInv(v.db, OwnedBy(v, i), s.c, s.at.reply);
      } else {
        assert OwnedBy(v, j) == OwnedBy(w, j);
        CommitGrows(w.db, OwnedBy(w, i), s, OwnedBy(w, j));
        SessionStays(w.db, v.db, OwnedBy(w, j), w.sessions[j]);
      }
    }
  }

  lemma StartKeepsInv(w: World, workspace: string, new': NewStart, safe: bool)
    requires Inv(w, workspace) && Enabled(w, Start(new', safe))
    ensures Inv(Apply(w, Start(new', safe)), workspace)
  {
    hide SessionInv, ExecuteAll, StartBatch, Agreement, Grown;
    var v := Apply(w, Start(new', safe));
    DoneAgrees(w, workspace);
    OneMoreDone(workspace, w.done, CmdStart(new', safe));
    CommandKeepsAgreement(w.db, CmdStart(new', safe));
    forall j | j in v.sessions
      ensures SessionInv(v.db, OwnedBy(v, j), v.sessions[j])
    {
      assert OwnedBy(v, j) == OwnedBy(w, j);
      StartGrows(w.db, new', safe, OwnedBy(w, j));
      SessionStays(w.db, v.db, OwnedBy(w, j), w.sessions[j]);
    }
  }

  lemma ActionKeepsInv(w: World, workspace: string, a: Action)
    requires Inv(w, workspace) && Enabled(w, a)
    ensures Inv(Apply(w, a), workspace)
  {
    match a
    case Start(new', safe) => StartKeepsInv(w, workspace, new', safe);
    case Run(i) => RunKeepsInv(w, workspace, i);
    case Commit(i) => CommitKeepsInv(w, workspace, i);
    case Open(i, c) => EdgeKeepsInv(w, workspace, a);
    case Abort(i) => EdgeKeepsInv(w, workspace, a);
  }

  lemma EdgeKeepsInv(w: World, workspace: string, a: Action)
    requires Inv(w, workspace) && Enabled(w, a) && (a.Open? || a.Abort?)
    ensures Inv(Apply(w, a), workspace)
  {
    hide ExecuteAll, ProcessingInv, FinishedInv, HoldsRows, Ready, Publishing;
    var v := Apply(w, a);
    forall j | j in v.sessions
      ensures SessionInv(v.db, OwnedBy(v, j), v.sessions[j])
    {
      if j != a.i {
        assert OwnedBy(v, j) == OwnedBy(w, j);
      }
    }
  }

  lemma {:induction false} RunsKeepInv(w: World, workspace: string, acts: seq<Action>, v: World)
    requires Inv(w, workspace) && Reaches(w, acts, v)
    ensures Inv(v, workspace)
    decreases |acts|
  {
    hide Inv, Apply, Enabled;
    if acts != [] {
      ActionKeepsInv(w, workspace, acts[0]);
      RunsKeepInv(Apply(w, acts[0]), workspace, acts[1..], v);
    }
  }

  /** However the statements of any number of commands interleave, with waits and aborts at any point:
      the database is the one the committed commands produce one after the other, so rows and applied
      events agree; no compare-and-set misses its row, and the processor refuses no publication. */
  lemma StartRacesAreSerial(workspace: string, acts: seq<Action>, v: World)
    requires Reaches(Empty(workspace), acts, v)
    ensures v.db == ExecuteAll(EmptyDatabase(workspace), v.done) && Agreement(v.db)
    ensures forall i :: i in v.sessions && v.sessions[i].at.Ended?
              ==> !v.sessions[i].at.reply.CasFailed? && !v.sessions[i].at.reply.NotApplied?
    ensures forall i :: i in v.sessions && v.sessions[i].at.Finished? ==>
              && !v.sessions[i].c.CmdStart?
              && Execute(v.db, v.sessions[i].c) == Result(View(v.db, v.sessions[i].c, v.sessions[i].work),
                                                          v.sessions[i].at.reply)
  {
    hide SessionInv, ExecuteAll, Execute, View, Agreement;
    assert Empty(workspace).db == ExecuteAll(EmptyDatabase(workspace), []) by { NothingDone(workspace); }
    RunsKeepInv(Empty(workspace), workspace, acts, v);
    DoneAgrees(v, workspace);
    forall i | i in v.sessions && v.sessions[i].at.Finished?
      ensures !v.sessions[i].c.CmdStart?
      ensures Execute(v.db, v.sessions[i].c) == Result(View(v.db, v.sessions[i].c, v.sessions[i].work),
                                                       v.sessions[i].at.reply)
    {
      NoStartSession(v.db, OwnedBy(v, i), v.sessions[i]);
      CommitIsSerial(v.db, OwnedBy(v, i), v.sessions[i]);
    }
    forall i | i in v.sessions && v.sessions[i].at.Ended?
      ensures !v.sessions[i].at.reply.CasFailed? && !v.sessions[i].at.reply.NotApplied?
    {
      NoStartSession(v.db, OwnedBy(v, i), v.sessions[i]);
    }
  }

  lemma NothingDone(workspace: string)
    ensures ExecuteAll(EmptyDatabase(workspace), []) == EmptyDatabase(workspace)
  {
  }

  lemma NoStartSession(db: Database, owned: set<Lock>, s: Session)
    requires SessionInv(db, owned, s)
    ensures !s.c.CmdStart?
    ensures s.at.Ended? ==> !s.at.reply.CasFailed? && !s.at.reply.NotApplied?
  {
  }
}
