/** The start command of a production batch (application/admin_execution.py and
    infrastructure/db/admin_execution.py): compare-and-set writes on the operation and its batch,
    an outbox event, and the event processor, in one transaction. */
module StartCommand {
  import opened CheckpointModel
  import opened EventProjection
  import G = StateGraph

  datatype EvidenceKind = Claim | Activation

  datatype Evidence = Evidence(kind: EvidenceKind, ref: string, runID: string)

  /** A row of cp_operation_executions; `evidence` is None until a claim. */
  datatype Execution = Execution(
    receiptID: string,
    batchID: string,
    status: G.OperationState,
    revision: int,
    actor: string,
    evidence: Option<Evidence>)

  /** A row of cp_production_batches; a batch without a revision is not yet under this command. */
  datatype Batch = Batch(status: G.BatchState, revision: Option<int>)

  datatype CommandReceipt = CommandReceipt(operationID: string, resourceBatch: Option<string>)

  datatype EventName = StartAccepted | StartClaimed | StartActivated | StartSucceeded

  /** A row of cp_outbox_events with the two payload fields that are queried. */
  datatype OutboxRow = OutboxRow(event: Event, name: EventName, operationID: string, receiptID: string)

  /** The rows of one workspace; `tables` are those of the two consumers of this command. */
  datatype Database = Database(
    workspace: string,
    executions: map<string, Execution>,
    batches: map<string, Batch>,
    receipts: map<string, CommandReceipt>,
    outbox: seq<OutboxRow>,
    tables: Tables)

  datatype StartEvidence = StartEvidence(
    workspace: string,
    operationID: string,
    receiptID: string,
    batchID: string,
    actor: string,
    runID: string,
    evidenceRef: string)

  datatype Reply =
    | Done(status: G.OperationState, revision: int)
    | Handled(verdict: Verdict)
    | RevisionConflict(actual: int)
    | NotFound
    | Invalid          // ValueError
    | CasFailed        // a compare-and-set met no row
    | NotApplied       // publish: the processor did not apply the event
    | KeyTaken         // a primary key exists already
    | Unsafe           // the payload check raised

  /** A transaction's end: any reply that is an error leaves the database as it was. */
  datatype Result = Result(db: Database, reply: Reply)

  const OPERATION := "operation"
  const BATCH := "production_batch"

  function Consumer(workspace: string, aggregateType: string): string {
    "p8-admin-execution:" + workspace + ":" + aggregateType
  }

  function OperationConsumer(db: Database): string { Consumer(db.workspace, OPERATION) }

  function BatchConsumer(db: Database): string { Consumer(db.workspace, BATCH) }

  // ----- statements -----

  predicate Complete(ev: StartEvidence) {
    && ev.workspace != "" && ev.operationID != "" && ev.receiptID != "" && ev.batchID != ""
    && ev.actor != "" && ev.runID != "" && ev.evidenceRef != ""
  }

  /** The three-way join finds a row. */
  predicate Loads(db: Database, ev: StartEvidence) {
    && ev.workspace == db.workspace
    && ev.operationID in db.executions
    && db.executions[ev.operationID].batchID in db.batches
    && db.executions[ev.operationID].receiptID in db.receipts
  }

  predicate Bound(db: Database, ev: StartEvidence)
    requires Loads(db, ev)
  {
    var e := db.executions[ev.operationID];
    var r := db.receipts[e.receiptID];
    && e.receiptID == ev.receiptID && e.batchID == ev.batchID && e.actor == ev.actor
    && r.operationID == ev.operationID
    && r.resourceBatch == Some(ev.batchID)
  }

  predicate IsAcceptance(r: OutboxRow, operationID: string, receiptID: string, batchID: string) {
    r.name.StartAccepted? && r.event.aggregateID == batchID && r.operationID == operationID && r.receiptID == receiptID
  }

  /** fetchone() over the matching outbox rows. */
  function FindAcceptance(outbox: seq<OutboxRow>, operationID: string, receiptID: string,
                          batchID: string): (r: Option<OutboxRow>)
    ensures r.Some? ==> r.value in outbox && IsAcceptance(r.value, operationID, receiptID, batchID)
    ensures r.Some? ==> && r.value.name.StartAccepted? && r.value.event.aggregateID == batchID
                        && r.value.operationID == operationID && r.value.receiptID == receiptID
    ensures r.None? ==> forall x :: x in outbox && x.name.StartAccepted? && x.event.aggregateID == batchID
                                    ==> x.operationID != operationID || x.receiptID != receiptID
  {
    if outbox == [] then None
    else if IsAcceptance(outbox[0], operationID, receiptID, batchID) then Some(outbox[0])
    else FindAcceptance(outbox[1..], operationID, receiptID, batchID)
  }

  /** The start_accepted event of the operation has an APPLIED checkpoint. */
  predicate AcceptedApplied(db: Database, operationID: string, receiptID: string, batchID: string) {
    exists r :: r in db.outbox && IsAcceptance(r, operationID, receiptID, batchID)
                && AppliedEvent(db.tables.checkpoints, BatchConsumer(db), r.event.id)
  }

  predicate EventIDTaken(db: Database, id: string) {
    exists r :: r in db.outbox && r.event.id == id
  }

  function EventOf(db: Database, id: string, aggregateType: string, aggregateID: string, revision: int,
                   safe: bool): Event {
    Event(id, db.workspace, aggregateType, aggregateID, revision, 1, None, safe)
  }

  /** Enqueue, then process. */
  function Publish(db: Database, event: Event, name: EventName, operationID: string, receiptID: string): Result {
    if !event.safe then Result(db, Unsafe)
    else if EventIDTaken(db, event.id) then Result(db, KeyTaken)
    else
      var out := Process(db.tables, Delivery(event, Consumer(event.workspace, event.aggregateType), None));
      if !out.verdict.VerdictApplied? then Result(db, NotApplied)
      else Result(db.(outbox := db.outbox + [OutboxRow(event, name, operationID, receiptID)], tables := out.tables),
                  Handled(out.verdict))
  }

  /** UPDATE ... SET status='STARTED', revision=1 WHERE status='PREPARED' AND revision AND actor_ref. */
  function ClaimRow(db: Database, ev: StartEvidence, expected: int): Option<Database> {
    if ev.operationID !in db.executions then None
    else
      var e := db.executions[ev.operationID];
      if !e.status.Prepared? || e.revision != expected || e.actor != ev.actor then None
      else Some(db.(executions := db.executions[ev.operationID :=
                      e.(status := G.Started, revision := 1,
                         evidence := Some(Evidence(Claim, ev.evidenceRef, ev.runID)))]))
  }

  /** UPDATE ... SET status='RUNNING', revision=2 WHERE status='CREATED' AND revision=1. */
  function ActivateBatch(db: Database, ev: StartEvidence): Option<Database> {
    if ev.batchID !in db.batches || db.batches[ev.batchID] != Batch(G.Created, Some(1)) then None
    else Some(db.(batches := db.batches[ev.batchID := Batch(G.RunningBatch, Some(2))]))
  }

  /** UPDATE ... SET status='SUCCEEDED', revision=2 WHERE status='STARTED' AND revision AND batch, actor, run. */
  function ConfirmRow(db: Database, ev: StartEvidence, expected: int): Option<Database> {
    if ev.operationID !in db.executions then None
    else
      var e := db.executions[ev.operationID];
      if !e.status.Started? || e.revision != expected || e.batchID != ev.batchID || e.actor != ev.actor
         || e.evidence.None? || e.evidence.value.runID != ev.runID then None
      else Some(db.(executions := db.executions[ev.operationID :=
                      e.(status := G.Succeeded, revision := 2,
                         evidence := Some(Evidence(Activation, ev.evidenceRef, e.evidence.value.runID)))]))
  }

  // ----- commands -----

  datatype NewStart = NewStart(operationID: string, receiptID: string, batchID: string, eventID: string, actor: string)

  /** The part of StartProductionBatch that opens the operation: a new batch gets revision 1, the
      operation is PREPARED at 0, and the acceptance goes to the outbox. */
  function StartBatch(db: Database, new': NewStart, safe: bool): Result {
    if new'.operationID in db.executions || new'.receiptID in db.receipts || new'.batchID in db.batches
       || EventIDTaken(db, new'.eventID) then Result(db, KeyTaken)
    else if !safe then Result(db, Unsafe)
    else Result(
      db.(executions := db.executions[new'.operationID := Execution(new'.receiptID, new'.batchID, G.Prepared, 0,
                                                                    new'.actor, None)],
          batches := db.batches[new'.batchID := Batch(G.Created, Some(1))],
          receipts := db.receipts[new'.receiptID := CommandReceipt(new'.operationID, Some(new'.batchID))],
          outbox := db.outbox + [OutboxRow(EventOf(db, new'.eventID, BATCH, new'.batchID, 1, true),
                                           StartAccepted, new'.operationID, new'.receiptID)]),
      Done(G.Prepared, 0))
  }

  function ApplyAcceptance(db: Database, ev: StartEvidence): Result {
    if !Complete(ev) then Result(db, Invalid)
    else if !Loads(db, ev) then Result(db, NotFound)
    else if !Bound(db, ev) then Result(db, Invalid)
    else
      var row := FindAcceptance(db.outbox, ev.operationID, ev.receiptID, ev.batchID);
      if row.None? then Result(db, Invalid)
      else
        var out := Process(db.tables, Delivery(row.value.event, BatchConsumer(db), None));
        if out.verdict.Raised? then Result(db, Unsafe) else Result(db.(tables := out.tables), Handled(out.verdict))
  }

  predicate ClaimReplay(e: Execution, ev: StartEvidence, expected: int) {
    e.status.Started? && expected == 0 && e.evidence == Some(Evidence(Claim, ev.evidenceRef, ev.runID))
  }

  function ClaimStart(db: Database, ev: StartEvidence, expected: int, eventID: string, safe: bool): Result {
    if !Complete(ev) then Result(db, Invalid)
    else if !Loads(db, ev) then Result(db, NotFound)
    else if !Bound(db, ev) then Result(db, Invalid)
    else
      var e := db.executions[ev.operationID];
      var b := db.batches[e.batchID];
      if ClaimReplay(e, ev, expected) then Result(db, Done(G.Started, 1))
      else if e.revision != expected then Result(db, RevisionConflict(e.revision))
      else if !AcceptedApplied(db, ev.operationID, ev.receiptID, ev.batchID) then Result(db, Invalid)
      else if !e.status.Prepared? || !b.status.Created? then Result(db, Invalid)
      else if b.revision != Some(1) then Result(db, Invalid)
      else
        var claimed := ClaimRow(db, ev, expected);
        if claimed.None? then Result(db, CasFailed)
        else
          var published := Publish(claimed.value, EventOf(db, eventID, OPERATION, ev.operationID, 1, safe),
                                   StartClaimed, ev.operationID, ev.receiptID);
          if !published.reply.Handled? then Result(db, published.reply)
          else Result(published.db, Done(G.Started, 1))
  }

  predicate ConfirmReplay(e: Execution, b: Batch, ev: StartEvidence, expected: int) {
    && e.status.Succeeded? && expected == 1 && e.evidence == Some(Evidence(Activation, ev.evidenceRef, ev.runID))
    && b == Batch(G.RunningBatch, Some(2))
  }

  function ConfirmRunning(db: Database, ev: StartEvidence, expected: int, batchEventID: string,
                          operationEventID: string, safe: bool): Result {
    if !Complete(ev) then Result(db, Invalid)
    else if !Loads(db, ev) then Result(db, NotFound)
    else if !Bound(db, ev) then Result(db, Invalid)
    else
      var e := db.executions[ev.operationID];
      var b := db.batches[e.batchID];
      if ConfirmReplay(e, b, ev, expected) then Result(db, Done(G.Succeeded, 2))
      else if e.revision != expected then Result(db, RevisionConflict(e.revision))
      else if !e.status.Started? || !b.status.Created? then Result(db, Invalid)
      else if b.revision != Some(1) || e.evidence.None? || e.evidence.value.runID != ev.runID then Result(db, Invalid)
      else
        var activated := ActivateBatch(db, ev);
        if activated.None? then Result(db, CasFailed)
        else
          var confirmed := ConfirmRow(activated.value, ev, expected);
          if confirmed.None? then Result(db, CasFailed)
          else PublishBoth(db, confirmed.value, ev, batchEventID, operationEventID, safe)
  }

  /** The two events of a confirmation; `db` is what a failure falls back to. */
  function PublishBoth(db: Database, work: Database, ev: StartEvidence, batchEventID: string,
                       operationEventID: string, safe: bool): Result {
    var first := Publish(work, EventOf(db, batchEventID, BATCH, ev.batchID, 2, safe),
                         StartActivated, ev.operationID, ev.receiptID);
    if !first.reply.Handled? then Result(db, first.reply)
    else
      var second := Publish(first.db, EventOf(db, operationEventID, OPERATION, ev.operationID, 2, safe),
                            StartSucceeded, ev.operationID, ev.receiptID);
      if !second.reply.Handled? then Result(db, second.reply)
      else Result(second.db, Done(G.Succeeded, 2))
  }

  // ----- agreement -----

  /** What the operation's rows and its events have in common. CONFIRMING lies between the two
      publications of a confirmation and is never committed. */
  datatype Stage = Opened | AcceptedStage | StartedStage | Confirming | SucceededStage

  function OperationRevision(db: Database, operationID: string): Option<int> {
    CurrentRevision(db.tables.checkpoints, OperationConsumer(db), operationID)
  }

  function BatchRevision(db: Database, batchID: string): Option<int> {
    CurrentRevision(db.tables.checkpoints, BatchConsumer(db), batchID)
  }

  /** The operation and its batch are at `stage`, in their rows as in the applied events. */
  predicate AtStage(db: Database, operationID: string, stage: Stage)
    requires operationID in db.executions && db.executions[operationID].batchID in db.batches
  {
    var e := db.executions[operationID];
    var b := db.batches[e.batchID];
    var o, a := OperationRevision(db, operationID), BatchRevision(db, e.batchID);
    match stage
    case Opened =>
      e.status.Prepared? && e.revision == 0 && e.evidence.None? && b == Batch(G.Created, Some(1)) && o == None
          && a == None
    case AcceptedStage =>
      e.status.Prepared? && e.revision == 0 && e.evidence.None? && b == Batch(G.Created, Some(1)) && o == None
          && a == Some(1)
    case StartedStage =>
      e.status.Started? && e.revision == 1 && e.evidence.Some? && b == Batch(G.Created, Some(1)) && o == Some(1)
          && a == Some(1)
    case Confirming =>
      e.status.Succeeded? && e.revision == 2 && e.evidence.Some? && b == Batch(G.RunningBatch, Some(2))
          && o == Some(1) && a == Some(2)
    case SucceededStage =>
      e.status.Succeeded? && e.revision == 2 && e.evidence.Some? && b == Batch(G.RunningBatch, Some(2))
          && o == Some(2) && a == Some(2)
  }

  ghost predicate OperationInv(db: Database, operationID: string)
    requires operationID in db.executions
  {
    var e := db.executions[operationID];
    && e.batchID in db.batches
    && e.receiptID in db.receipts
    && (exists stage :: AtStage(db, operationID, stage))
    && (exists r :: r in db.outbox && IsAcceptance(r, operationID, e.receiptID, e.batchID))
    && (forall r :: r in db.outbox && IsAcceptance(r, operationID, e.receiptID, e.batchID) ==>
          (AppliedEvent(db.tables.checkpoints, BatchConsumer(db), r.event.id) <==> BatchRevision(db, e.batchID).Some?))
  }

  /** Every event in the outbox is one of this command's, for a known operation. */
  predicate OutboxRowInv(db: Database, r: OutboxRow) {
    && r.operationID in db.executions
    && var batchID := db.executions[r.operationID].batchID;
       match r.name
       case StartAccepted => r.event == EventOf(db, r.event.id, BATCH, batchID, 1, true)
       case StartActivated => r.event == EventOf(db, r.event.id, BATCH, batchID, 2, true)
       case StartClaimed => r.event == EventOf(db, r.event.id, OPERATION, r.operationID, 1, true)
       case StartSucceeded => r.event == EventOf(db, r.event.id, OPERATION, r.operationID, 2, true)
  }

  /** Every checkpoint row is an applied event of the outbox, under the consumer of its type. */
  predicate RowInv(db: Database, row: Row) {
    && row.status.Applied? && row.current == Some(row.event.revision)
    && row.consumer == Consumer(db.workspace, row.event.aggregateType)
    && exists r :: r in db.outbox && r.event == row.event
  }

  ghost predicate OperationsInv(db: Database) {
    && (forall o :: o in db.executions ==> OperationInv(db, o))
    && (forall o, p :: o in db.executions && p in db.executions && o != p ==>
          db.executions[o].batchID != db.executions[p].batchID)
  }

  predicate SameAcceptance(r: OutboxRow, q: OutboxRow) {
    r.name.StartAccepted? && q.name.StartAccepted? && r.operationID == q.operationID
  }

  predicate OutboxInv(db: Database) {
    && (forall r :: r in db.outbox ==> OutboxRowInv(db, r))
    && (forall r, q :: r in db.outbox && q in db.outbox && r.event.id == q.event.id ==> r == q)
    && (forall r, q :: r in db.outbox && q in db.outbox && SameAcceptance(r, q) ==> r == q)
  }

  predicate RowsInv(db: Database) {
    forall row :: row in db.tables.checkpoints ==> RowInv(db, row)
  }

  /** Inside a transaction. */
  ghost predicate Coherent(db: Database) {
    OperationsInv(db) && OutboxInv(db) && RowsInv(db)
  }

  predicate NoneConfirming(db: Database) {
    forall o :: o in db.executions && db.executions[o].batchID in db.batches ==> !AtStage(db, o, Confirming)
  }

  /** Between transactions: every operation and its batch are at one of four stages, the same in
      their rows as in the events applied for them. */
  ghost predicate Agreement(db: Database) {
    Coherent(db) && NoneConfirming(db)
  }

  // ----- rows and revisions -----

  lemma {:induction false} RevisionKnown(rows: seq<Row>, c: string, a: string)
    requires forall row :: row in rows ==> row.status.Applied? && row.current == Some(row.event.revision)
    ensures CurrentRevision(rows, c, a).Some? <==> exists row :: row in rows && AppliedFor(row, c, a)
  {
    if rows != [] {
      var before, last := rows[..|rows| - 1], rows[|rows| - 1];
      assert rows == before + [last];
      RevisionKnown(before, c, a);
      if AppliedFor(last, c, a) {
        assert last in rows;
      }
    }
  }

  lemma ConsumersDiffer(workspace: string, s: string, t: string)
    ensures Consumer(workspace, s) == Consumer(workspace, t) <==> s == t
  {
    var p := "p8-admin-execution:" + workspace + ":";
    assert Consumer(workspace, s) == p + s && Consumer(workspace, t) == p + t;
    assert (p + s)[|p|..] == s && (p + t)[|p|..] == t;
  }

  /** An event that is not in the outbox has no checkpoint. */
  lemma NewEventHasNoRow(db: Database, consumer: string, id: string)
    requires RowsInv(db) && !EventIDTaken(db, id)
    ensures !HasRow(db.tables.checkpoints, consumer, id)
  {
    var rows := db.tables.checkpoints;
    forall i | 0 <= i < |rows|
      ensures rows[i].event.id != id
    {
      assert rows[i] in rows;
    }
  }

  lemma HasRowIsApplied(db: Database, consumer: string, id: string)
    requires RowsInv(db)
    ensures HasRow(db.tables.checkpoints, consumer, id) <==> AppliedEvent(db.tables.checkpoints, consumer, id)
  {
    var rows := db.tables.checkpoints;
    forall i | 0 <= i < |rows|
      ensures rows[i] in rows && rows[i].status.Applied?
    {
      assert RowInv(db, rows[i]);
    }
    if AppliedEvent(rows, consumer, id) {
      var row :| row in rows && row.consumer == consumer && row.event.id == id && row.status.Applied?;
      var i :| 0 <= i < |rows| && rows[i] == row;
    }
  }

  // ----- one published event -----

  /** What Publish does when the event is the next of its aggregate. */
  lemma PublishApplies(db: Database, event: Event, name: EventName, operationID: string, receiptID: string)
    requires RowsInv(db) && event.safe && event.schemaVersion == 1 && event.recoveryEpoch.None?
    requires event.workspace == db.workspace && !EventIDTaken(db, event.id)
    requires var current := CurrentRevision(db.tables.checkpoints, Consumer(db.workspace, event.aggregateType),
                                            event.aggregateID);
             current.Some? ==> event.revision == current.value + 1
    ensures var consumer := Consumer(db.workspace, event.aggregateType);
            var out := Publish(db, event, name, operationID, receiptID);
            && out.reply == Handled(VerdictApplied)
            && out.db == db.(outbox := db.outbox + [OutboxRow(event, name, operationID, receiptID)],
                             tables := out.db.tables)
            && out.db.tables.checkpoints == db.tables.checkpoints
                + [Row(consumer, event, Some(event.revision), Applied)]
  {
    NewEventHasNoRow(db, Consumer(db.workspace, event.aggregateType), event.id);
  }

  /** A row of an event leaves the revisions of every other aggregate alone. */
  lemma RowMovesOneRevision(db: Database, next: Database, row: Row)
    requires next.workspace == db.workspace && next.tables.checkpoints == db.tables.checkpoints + [row]
    requires row.status.Applied? && row.current == Some(row.event.revision)
    requires row.consumer == Consumer(db.workspace, row.event.aggregateType)
    ensures forall o :: OperationRevision(next, o) ==
              if row.event.aggregateType == OPERATION && row.event.aggregateID == o
              then Larger(OperationRevision(db, o), row.current) else OperationRevision(db, o)
    ensures forall b :: BatchRevision(next, b) ==
              if row.event.aggregateType == BATCH && row.event.aggregateID == b
              then Larger(BatchRevision(db, b), row.current) else BatchRevision(db, b)
  {
    ConsumersDiffer(db.workspace, row.event.aggregateType, OPERATION);
    ConsumersDiffer(db.workspace, row.event.aggregateType, BATCH);
    forall o
      ensures OperationRevision(next, o) ==
              if row.event.aggregateType == OPERATION && row.event.aggregateID == o
              then Larger(OperationRevision(db, o), row.current) else OperationRevision(db, o)
    {
      RevisionAfterRow(db.tables.checkpoints, row, OperationConsumer(db), o);
    }
    forall b
      ensures BatchRevision(next, b) ==
              if row.event.aggregateType == BATCH && row.event.aggregateID == b
              then Larger(BatchRevision(db, b), row.current) else BatchRevision(db, b)
    {
      RevisionAfterRow(db.tables.checkpoints, row, BatchConsumer(db), b);
    }
  }

  /** The outbox and the rows stay in order when an event of a known operation is published. */
  lemma PublishKeepsRows(db: Database, next: Database, r: OutboxRow)
    requires OutboxInv(db) && RowsInv(db) && !EventIDTaken(db, r.event.id) && OutboxRowInv(next, r)
    requires r.name.StartAccepted? ==> r.operationID !in db.executions
    requires next.workspace == db.workspace && next.outbox == db.outbox + [r]
    requires next.tables.checkpoints == db.tables.checkpoints
             || next.tables.checkpoints == db.tables.checkpoints
                  + [Row(Consumer(db.workspace, r.event.aggregateType), r.event, Some(r.event.revision), Applied)]
    requires forall o :: o in db.executions ==>
               o in next.executions && next.executions[o].batchID == db.executions[o].batchID
    ensures OutboxInv(next) && RowsInv(next)
  {
    forall row | row in next.tables.checkpoints
      ensures RowInv(next, row)
    {
      if row in db.tables.checkpoints {
        assert RowInv(db, row);
        var q :| q in db.outbox && q.event == row.event;
        assert q in next.outbox;
      } else {
        assert r in next.outbox;
      }
    }
    forall q | q in next.outbox
      ensures OutboxRowInv(next, q)
    {
      if q in db.outbox {
        assert OutboxRowInv(db, q);
      }
    }
  }

  lemma AppliedEventAfterRow(rows: seq<Row>, row: Row, consumer: string, id: string)
    ensures AppliedEvent(rows + [row], consumer, id)
            <==> AppliedEvent(rows, consumer, id) || (row.consumer == consumer && row.event.id == id
                                                      && row.status.Applied?)
  {
    if AppliedEvent(rows, consumer, id) {
      var x :| x in rows && x.consumer == consumer && x.event.id == id && x.status.Applied?;
      assert x in rows + [row];
    }
    assert row in rows + [row];
  }

  // ----- what every command keeps -----

  /** An operation that is at a stage again, with the same acceptances, is in order again. */
  lemma OperationStays(db: Database, next: Database, o: string, stage: Stage)
    requires next.workspace == db.workspace && o in db.executions && o in next.executions && OperationInv(db, o)
    requires next.executions[o].batchID == db.executions[o].batchID
    requires next.executions[o].receiptID == db.executions[o].receiptID
    requires next.executions[o].batchID in next.batches && next.executions[o].receiptID in next.receipts
    requires AtStage(next, o, stage)
    requires forall r :: IsAcceptance(r, o, db.executions[o].receiptID, db.executions[o].batchID) ==>
               (r in next.outbox <==> r in db.outbox)
    requires forall r :: r in db.outbox && IsAcceptance(r, o, db.executions[o].receiptID, db.executions[o].batchID) ==>
               (AppliedEvent(next.tables.checkpoints, BatchConsumer(db), r.event.id)
                <==> BatchRevision(next, db.executions[o].batchID).Some?)
    ensures OperationInv(next, o)
  {
    var r :| r in db.outbox && IsAcceptance(r, o, db.executions[o].receiptID, db.executions[o].batchID);
    assert r in next.outbox;
  }

  /** An event of another operation and batch is published: this operation stays in order. */
  lemma OtherStays(db: Database, next: Database, r: OutboxRow, o: string)
    requires o in db.executions && OperationInv(db, o) && !EventIDTaken(db, r.event.id)
    requires r.event.aggregateType == OPERATION ==> r.event.aggregateID != o
    requires r.event.aggregateType == BATCH ==> r.event.aggregateID != db.executions[o].batchID
    requires r.operationID != o
    requires next.workspace == db.workspace && next.receipts == db.receipts && next.outbox == db.outbox + [r]
    requires next.tables.checkpoints == db.tables.checkpoints
               + [Row(Consumer(db.workspace, r.event.aggregateType), r.event, Some(r.event.revision), Applied)]
    requires o in next.executions && next.executions[o] == db.executions[o]
    requires db.executions[o].batchID in next.batches
             && next.batches[db.executions[o].batchID] == db.batches[db.executions[o].batchID]
    ensures OperationInv(next, o)
    ensures AtStage(next, o, Confirming) ==> AtStage(db, o, Confirming)
  {
    var row := Row(Consumer(db.workspace, r.event.aggregateType), r.event, Some(r.event.revision), Applied);
    RowMovesOneRevision(db, next, row);
    var stage :| AtStage(db, o, stage);
    AcceptancesStay(db, next, row, o);
    OperationStays(db, next, o, stage);
  }

  /** A row of a new event changes nobody's acceptance. */
  lemma AcceptancesStay(db: Database, next: Database, row: Row, o: string)
    requires next.workspace == db.workspace && o in db.executions && OperationInv(db, o)
    requires !EventIDTaken(db, row.event.id) && next.tables.checkpoints == db.tables.checkpoints + [row]
    ensures forall q :: q in db.outbox && IsAcceptance(q, o, db.executions[o].receiptID, db.executions[o].batchID) ==>
              (AppliedEvent(next.tables.checkpoints, BatchConsumer(db), q.event.id)
               <==> BatchRevision(db, db.executions[o].batchID).Some?)
  {
    forall q | q in db.outbox && IsAcceptance(q, o, db.executions[o].receiptID, db.executions[o].batchID)
      ensures AppliedEvent(next.tables.checkpoints, BatchConsumer(db), q.event.id)
              <==> BatchRevision(db, db.executions[o].batchID).Some?
    {
      AppliedEventAfterRow(db.tables.checkpoints, row, BatchConsumer(db), q.event.id);
    }
  }

  lemma OperationFacts(db: Database, o: string)
    requires OperationsInv(db) && o in db.executions
    ensures OperationInv(db, o)
    ensures db.executions[o].batchID in db.batches && db.executions[o].receiptID in db.receipts
    ensures forall p :: p in db.executions && p != o ==> db.executions[p].batchID != db.executions[o].batchID
  {
  }

  /** The operation that published `r` moves to `stage`. */
  lemma MoverStays(db: Database, next: Database, r: OutboxRow, row: Row, stage: Stage)
    requires r.operationID in db.executions && OperationInv(db, r.operationID)
    requires !EventIDTaken(db, row.event.id) && !r.name.StartAccepted?
    requires next.workspace == db.workspace && next.receipts == db.receipts && next.outbox == db.outbox + [r]
    requires next.tables.checkpoints == db.tables.checkpoints + [row]
    requires r.operationID in next.executions
    requires next.executions[r.operationID].batchID == db.executions[r.operationID].batchID
    requires next.executions[r.operationID].receiptID == db.executions[r.operationID].receiptID
    requires next.executions[r.operationID].batchID in next.batches
    requires BatchRevision(db, db.executions[r.operationID].batchID).Some?
    requires AtStage(next, r.operationID, stage) && !stage.Opened?
    ensures OperationInv(next, r.operationID)
  {
    AcceptancesStay(db, next, row, r.operationID);
    OperationStays(db, next, r.operationID, stage);
  }

  /** `next` is `db` after operation `r.operationID` has moved to `stage` with the event `r`. */
  predicate MovedBy(db: Database, next: Database, r: OutboxRow, stage: Stage) {
    && next.workspace == db.workspace && next.receipts == db.receipts && next.outbox == db.outbox + [r]
    && next.tables.checkpoints == db.tables.checkpoints
         + [Row(Consumer(db.workspace, r.event.aggregateType), r.event, Some(r.event.revision), Applied)]
    && next.executions.Keys == db.executions.Keys && next.batches.Keys == db.batches.Keys
    && r.operationID in db.executions
    && var e, f := db.executions[r.operationID], next.executions[r.operationID];
       && f.batchID == e.batchID && f.receiptID == e.receiptID
       && (forall o :: o in db.executions && o != r.operationID ==> next.executions[o] == db.executions[o])
       && (forall b :: b in db.batches && b != e.batchID ==> next.batches[b] == db.batches[b])
       && BatchRevision(db, e.batchID).Some? && e.batchID in db.batches
       && AtStage(next, r.operationID, stage) && !stage.Opened?
       && !r.name.StartAccepted? && OutboxRowInv(next, r)
  }

  lemma MoveKeepsOther(db: Database, next: Database, r: OutboxRow, stage: Stage, o: string)
    requires OperationsInv(db) && MovedBy(db, next, r, stage) && !EventIDTaken(db, r.event.id)
    requires o in db.executions && o != r.operationID
    ensures OperationInv(next, o)
    ensures db.executions[o].batchID in db.batches && next.executions[o] == db.executions[o]
    ensures AtStage(next, o, Confirming) ==> AtStage(db, o, Confirming)
  {
    OperationFacts(db, o);
    hide OperationsInv, OperationInv, AtStage, AppliedEvent, CurrentRevision, EventIDTaken;
    OtherStays(db, next, r, o);
  }

  /** An operation moves to `stage` with the event `r`, and nothing else changes. */
  lemma MoveKeepsCoherence(db: Database, next: Database, r: OutboxRow, stage: Stage)
    requires Coherent(db) && MovedBy(db, next, r, stage) && !EventIDTaken(db, r.event.id)
    ensures Coherent(next)
    ensures forall o :: o in db.executions && o != r.operationID && db.executions[o].batchID in db.batches ==>
              (AtStage(next, o, Confirming) ==> AtStage(db, o, Confirming))
  {
    hide OperationInv, AtStage, AppliedEvent, RowInv, CurrentRevision, EventIDTaken, OutboxRowInv;
    PublishKeepsRows(db, next, r);
    OperationFacts(db, r.operationID);
    MoverStays(db, next, r, Row(Consumer(db.workspace, r.event.aggregateType), r.event, Some(r.event.revision),
                                Applied), stage);
    forall o | o in next.executions && o != r.operationID
      ensures OperationInv(next, o)
      ensures db.executions[o].batchID in db.batches && next.executions[o] == db.executions[o]
      ensures AtStage(next, o, Confirming) ==> AtStage(db, o, Confirming)
    {
      MoveKeepsOther(db, next, r, stage, o);
    }
  }

  /** Nobody is left confirming when the operation has moved to another stage. */
  lemma MoveSettles(db: Database, next: Database, r: OutboxRow, stage: Stage)
    requires MovedBy(db, next, r, stage) && !stage.Confirming?
    requires forall o :: o in db.executions && o != r.operationID && db.executions[o].batchID in db.batches ==>
               !AtStage(next, o, Confirming)
    ensures NoneConfirming(next)
  {
    hide CurrentRevision;
  }

  lemma StageOfClaim(db: Database, ev: StartEvidence)
    requires Loads(db, ev) && Bound(db, ev) && db.executions[ev.operationID].status.Prepared?
    requires OperationInv(db, ev.operationID)
    ensures AcceptedApplied(db, ev.operationID, ev.receiptID, ev.batchID)
            <==> AtStage(db, ev.operationID, AcceptedStage)
    ensures db.executions[ev.operationID].revision == 0
  {
    hide AppliedEvent, CurrentRevision;
    var stage :| AtStage(db, ev.operationID, stage);
    var r :| r in db.outbox && IsAcceptance(r, ev.operationID, ev.receiptID, ev.batchID);
  }

  lemma ClaimWorks(db: Database, ev: StartEvidence, eventID: string)
    requires Agreement(db) && Loads(db, ev) && Bound(db, ev) && AtStage(db, ev.operationID, AcceptedStage)
    requires !EventIDTaken(db, eventID)
    ensures var work := ClaimRow(db, ev, 0);
            && work.Some?
            && var out := Publish(work.value, EventOf(db, eventID, OPERATION, ev.operationID, 1, true),
                                  StartClaimed, ev.operationID, ev.receiptID);
            && out.reply.Handled? && Agreement(out.db)
            && ev.operationID in out.db.executions && out.db.executions[ev.operationID].batchID == ev.batchID
            && ev.batchID in out.db.batches && AtStage(out.db, ev.operationID, StartedStage)
  {
    hide OperationInv, AppliedEvent, OutboxInv, RowInv, Process;
    var work := ClaimRow(db, ev, 0).value;
    var event := EventOf(db, eventID, OPERATION, ev.operationID, 1, true);
    var r := OutboxRow(event, StartClaimed, ev.operationID, ev.receiptID);
    SameRows(db, work);
    PublishApplies(work, event, StartClaimed, ev.operationID, ev.receiptID);
    var next := Publish(work, event, StartClaimed, ev.operationID, ev.receiptID).db;
    RowMovesOneRevision(db, next, Row(OperationConsumer(db), event, Some(1), Applied));
    MoveKeepsCoherence(db, next, r, StartedStage);
    MoveSettles(db, next, r, StartedStage);
  }

  lemma SameRows(db: Database, next: Database)
    requires RowsInv(db) && next.outbox == db.outbox && next.tables == db.tables && next.workspace == db.workspace
    ensures RowsInv(next)
  {
    forall row | row in next.tables.checkpoints
      ensures RowInv(next, row)
    {
      assert RowInv(db, row);
    }
  }

  /** A claim keeps the agreement, and the processor applies its publication; when it changes anything
      it takes the operation from PREPARED 0 to STARTED 1. That its compare-and-set finds the row is
      plain here, where nobody else writes; `StartSerial.StartRacesAreSerial` has the others write. */
  lemma ClaimKeepsAgreement(db: Database, ev: StartEvidence, expected: int, eventID: string, safe: bool)
    requires Agreement(db)
    ensures var out := ClaimStart(db, ev, expected, eventID, safe);
            && Agreement(out.db)
            && !out.reply.CasFailed? && !out.reply.NotApplied?
            && (out.db != db ==> Moves(db, out.db, ev, AcceptedStage, StartedStage))
  {
    hide OperationInv, AppliedEvent, OutboxInv, RowInv, Process, AtStage;
    if Complete(ev) && Loads(db, ev) && Bound(db, ev) && db.executions[ev.operationID].status.Prepared? {
      OperationFacts(db, ev.operationID);
      StageOfClaim(db, ev);
      if AcceptedApplied(db, ev.operationID, ev.receiptID, ev.batchID) && !EventIDTaken(db, eventID) {
        ClaimWorks(db, ev, eventID);
      }
    }
  }

  /** The operation of the evidence goes from one stage to another. */
  predicate Moves(db: Database, next: Database, ev: StartEvidence, from: Stage, to: Stage) {
    && ev.operationID in db.executions && ev.operationID in next.executions
    && db.executions[ev.operationID].batchID == ev.batchID == next.executions[ev.operationID].batchID
    && ev.batchID in db.batches && ev.batchID in next.batches
    && AtStage(db, ev.operationID, from) && AtStage(next, ev.operationID, to)
  }

  /** Both compare-and-sets of a confirmation. */
  function ConfirmedRows(db: Database, ev: StartEvidence): Option<Database> {
    match ActivateBatch(db, ev)
    case None => None
    case Some(activated) => ConfirmRow(activated, ev, 1)
  }

  /** A started operation with its own evidence can be confirmed, and only its rows change. */
  predicate Confirmable(db: Database, ev: StartEvidence) {
    && Loads(db, ev) && Bound(db, ev) && AtStage(db, ev.operationID, StartedStage)
    && db.executions[ev.operationID].evidence.value.runID == ev.runID
  }

  lemma ConfirmedRowsExist(db: Database, ev: StartEvidence)
    requires Confirmable(db, ev)
    ensures ConfirmedRows(db, ev).Some?
    ensures var work := ConfirmedRows(db, ev).value;
            var e := db.executions[ev.operationID];
            work == db.(executions := db.executions[ev.operationID :=
                          e.(status := G.Succeeded, revision := 2,
                             evidence := Some(Evidence(Activation, ev.evidenceRef, ev.runID)))],
                        batches := db.batches[ev.batchID := Batch(G.RunningBatch, Some(2))])
  {
    hide CurrentRevision;
  }

  /** The operation of the evidence is at `stage`, and no other is being confirmed. */
  predicate OnlyAt(db: Database, ev: StartEvidence, stage: Stage) {
    && ev.operationID in db.executions && db.executions[ev.operationID].batchID == ev.batchID
        && ev.batchID in db.batches
    && AtStage(db, ev.operationID, stage)
    && forall o :: o in db.executions && o != ev.operationID && db.executions[o].batchID in db.batches ==>
         !AtStage(db, o, Confirming)
  }

  lemma ActivationPublished(db: Database, ev: StartEvidence, id: string)
    requires Agreement(db) && Confirmable(db, ev) && !EventIDTaken(db, id)
    ensures var work := ConfirmedRows(db, ev);
            var event := EventOf(db, id, BATCH, ev.batchID, 2, true);
            && work.Some?
            && var out := Publish(work.value, event, StartActivated, ev.operationID, ev.receiptID);
            && out.reply == Handled(VerdictApplied) && Coherent(out.db) && OnlyAt(out.db, ev, Confirming)
            && out.db.workspace == db.workspace
            && out.db.outbox == db.outbox + [OutboxRow(event, StartActivated, ev.operationID, ev.receiptID)]
  {
    hide OperationInv, AppliedEvent, OutboxInv, RowInv, Process, ConfirmedRows;
    ConfirmedRowsExist(db, ev);
    var work := ConfirmedRows(db, ev).value;
    var event := EventOf(db, id, BATCH, ev.batchID, 2, true);
    SameRows(db, work);
    PublishApplies(work, event, StartActivated, ev.operationID, ev.receiptID);
    var next := Publish(work, event, StartActivated, ev.operationID, ev.receiptID).db;
    RowMovesOneRevision(db, next, Row(BatchConsumer(db), event, Some(2), Applied));
    hide CurrentRevision, Publish;
    MoveKeepsCoherence(db, next, OutboxRow(event, StartActivated, ev.operationID, ev.receiptID), Confirming);
  }

  lemma SuccessPublished(db: Database, ev: StartEvidence, id: string)
    requires Coherent(db) && OnlyAt(db, ev, Confirming) && !EventIDTaken(db, id)
    ensures var event := EventOf(db, id, OPERATION, ev.operationID, 2, true);
            var out := Publish(db, event, StartSucceeded, ev.operationID, ev.receiptID);
            && out.reply == Handled(VerdictApplied) && Agreement(out.db) && OnlyAt(out.db, ev, SucceededStage)
  {
    hide OperationInv, AppliedEvent, OutboxInv, RowInv, Process;
    var event := EventOf(db, id, OPERATION, ev.operationID, 2, true);
    var r := OutboxRow(event, StartSucceeded, ev.operationID, ev.receiptID);
    PublishApplies(db, event, StartSucceeded, ev.operationID, ev.receiptID);
    var next := Publish(db, event, StartSucceeded, ev.operationID, ev.receiptID).db;
    RowMovesOneRevision(db, next, Row(OperationConsumer(db), event, Some(2), Applied));
    hide CurrentRevision, Publish;
    MoveKeepsCoherence(db, next, r, SucceededStage);
    MoveSettles(db, next, r, SucceededStage);
  }

  lemma ConfirmWorks(db: Database, ev: StartEvidence, batchEventID: string, operationEventID: string)
    requires Agreement(db) && Confirmable(db, ev)
    requires !EventIDTaken(db, batchEventID) && !EventIDTaken(db, operationEventID) && batchEventID != operationEventID
    ensures var work := ConfirmedRows(db, ev);
            && work.Some?
            && var out := PublishBoth(db, work.value, ev, batchEventID, operationEventID, true);
            && out.reply == Done(G.Succeeded, 2) && Agreement(out.db)
            && Moves(db, out.db, ev, StartedStage, SucceededStage)
  {
    hide Agreement, Coherent, Publish, ConfirmedRows, AtStage, EventIDTaken;
    ActivationPublished(db, ev, batchEventID);
    var first := EventOf(db, batchEventID, BATCH, ev.batchID, 2, true);
    var r := OutboxRow(first, StartActivated, ev.operationID, ev.receiptID);
    var mid := Publish(ConfirmedRows(db, ev).value, first, StartActivated, ev.operationID, ev.receiptID).db;
    IDsAfterPublish(db, mid, r, operationEventID);
    SuccessPublished(mid, ev, operationEventID);
  }

  lemma IDsAfterPublish(db: Database, next: Database, r: OutboxRow, id: string)
    requires next.outbox == db.outbox + [r] && r.event.id != id
    ensures EventIDTaken(next, id) <==> EventIDTaken(db, id)
  {
    if EventIDTaken(db, id) {
      var q :| q in db.outbox && q.event.id == id;
      assert q in next.outbox;
    }
  }

  /** The same for a confirmation: from STARTED 1 to SUCCEEDED 2, with the batch from CREATED 1 to
      RUNNING 2. */
  lemma ConfirmKeepsAgreement(db: Database, ev: StartEvidence, expected: int, batchEventID: string,
                              operationEventID: string, safe: bool)
    requires Agreement(db)
    ensures var out := ConfirmRunning(db, ev, expected, batchEventID, operationEventID, safe);
            && Agreement(out.db)
            && !out.reply.CasFailed? && !out.reply.NotApplied?
            && (out.db != db ==> Moves(db, out.db, ev, StartedStage, SucceededStage))
  {
    hide OperationInv, AppliedEvent, OutboxInv, RowInv, Process, AtStage, NoneConfirming;
    var out := ConfirmRunning(db, ev, expected, batchEventID, operationEventID, safe);
    if Complete(ev) && Loads(db, ev) && Bound(db, ev) && db.executions[ev.operationID].status.Started? {
      OperationFacts(db, ev.operationID);
      StageOfConfirm(db, ev);
      if expected == 1 && db.executions[ev.operationID].evidence.value.runID == ev.runID {
        if EventIDTaken(db, batchEventID) || EventIDTaken(db, operationEventID) || batchEventID == operationEventID
            || !safe {
          ConfirmRefused(db, ev, batchEventID, operationEventID, safe);
        } else {
          ConfirmWorks(db, ev, batchEventID, operationEventID);
        }
      }
    }
  }

  lemma StageOfConfirm(db: Database, ev: StartEvidence)
    requires Loads(db, ev) && Bound(db, ev) && db.executions[ev.operationID].status.Started?
    requires OperationInv(db, ev.operationID)
    ensures AtStage(db, ev.operationID, StartedStage)
    ensures db.executions[ev.operationID].revision == 1 && db.executions[ev.operationID].evidence.Some?
    ensures db.batches[ev.batchID] == Batch(G.Created, Some(1))
  {
    hide AppliedEvent, CurrentRevision;
    var stage :| AtStage(db, ev.operationID, stage);
  }

  /** A confirmation whose event ids are taken, or whose events are unsafe, is rolled back. */
  lemma ConfirmRefused(db: Database, ev: StartEvidence, batchEventID: string, operationEventID: string, safe: bool)
    requires Agreement(db) && Confirmable(db, ev)
    requires EventIDTaken(db, batchEventID) || EventIDTaken(db, operationEventID) || batchEventID == operationEventID
             || !safe
    ensures var work := ConfirmedRows(db, ev);
            && work.Some?
            && var out := PublishBoth(db, work.value, ev, batchEventID, operationEventID, safe);
            && out == Result(db, if safe then KeyTaken else Unsafe)
  {
    hide Agreement, Coherent, OnlyAt, Confirmable, Publish, EventIDTaken;
    ConfirmedRowsExist(db, ev);
    var work := ConfirmedRows(db, ev).value;
    hide ConfirmedRows;
    var first := EventOf(db, batchEventID, BATCH, ev.batchID, 2, safe);
    SameIDs(db, work, batchEventID);
    if !safe || EventIDTaken(db, batchEventID) {
      PublishRefused(work, first, StartActivated, ev.operationID, ev.receiptID);
    } else {
      ActivationPublished(db, ev, batchEventID);
      var mid := Publish(work, first, StartActivated, ev.operationID, ev.receiptID).db;
      TakenAfterPublish(db, mid, OutboxRow(first, StartActivated, ev.operationID, ev.receiptID), operationEventID);
      PublishRefused(mid, EventOf(db, operationEventID, OPERATION, ev.operationID, 2, safe), StartSucceeded,
                     ev.operationID, ev.receiptID);
    }
  }

  lemma PublishRefused(db: Database, event: Event, name: EventName, operationID: string, receiptID: string)
    requires !event.safe || EventIDTaken(db, event.id)
    ensures Publish(db, event, name, operationID, receiptID) == Result(db, if !event.safe then Unsafe else KeyTaken)
  {
  }

  lemma SameIDs(db: Database, next: Database, id: string)
    requires next.outbox == db.outbox
    ensures EventIDTaken(next, id) <==> EventIDTaken(db, id)
  {
  }

  lemma TakenAfterPublish(db: Database, next: Database, r: OutboxRow, id: string)
    requires next.outbox == db.outbox + [r] && (r.event.id == id || EventIDTaken(db, id))
    ensures EventIDTaken(next, id)
  {
    assert r in next.outbox;
    if r.event.id != id {
      IDsAfterPublish(db, next, r, id);
    }
  }

  // ----- acceptance -----

  /** Tables with one more row for an event that is in the outbox. */
  predicate AcceptedBy(db: Database, next: Database, r: OutboxRow) {
    && next == db.(tables := next.tables)
    && r in db.outbox && r.name.StartAccepted? && OutboxRowInv(db, r)
    && next.tables.checkpoints == db.tables.checkpoints + [Row(BatchConsumer(db), r.event, Some(1), Applied)]
  }

  lemma AcceptKeepsOther(db: Database, next: Database, r: OutboxRow, o: string)
    requires AcceptedBy(db, next, r) && OutboxInv(db) && o in db.executions && OperationInv(db, o) && o != r.operationID
    requires db.executions[o].batchID != db.executions[r.operationID].batchID
    ensures OperationInv(next, o)
    ensures db.executions[o].batchID in db.batches && (AtStage(next, o, Confirming) ==> AtStage(db, o, Confirming))
  {
    hide CurrentRevision;
    var row := Row(BatchConsumer(db), r.event, Some(1), Applied);
    RowMovesOneRevision(db, next, row);
    var stage :| AtStage(db, o, stage);
    forall q | q in db.outbox && IsAcceptance(q, o, db.executions[o].receiptID, db.executions[o].batchID)
      ensures AppliedEvent(next.tables.checkpoints, BatchConsumer(db), q.event.id)
              <==> BatchRevision(next, db.executions[o].batchID).Some?
    {
      AppliedEventAfterRow(db.tables.checkpoints, row, BatchConsumer(db), q.event.id);
    }
    OperationStays(db, next, o, stage);
  }

  lemma AcceptMovesOwn(db: Database, next: Database, r: OutboxRow)
    requires AcceptedBy(db, next, r) && OutboxInv(db) && OperationInv(db, r.operationID)
    requires AtStage(db, r.operationID, Opened)
    ensures OperationInv(next, r.operationID) && AtStage(next, r.operationID, AcceptedStage)
  {
    hide CurrentRevision;
    var o := r.operationID;
    var row := Row(BatchConsumer(db), r.event, Some(1), Applied);
    RowMovesOneRevision(db, next, row);
    forall q | q in db.outbox && IsAcceptance(q, o, db.executions[o].receiptID, db.executions[o].batchID)
      ensures AppliedEvent(next.tables.checkpoints, BatchConsumer(db), q.event.id)
    {
      assert SameAcceptance(q, r);
      AppliedEventAfterRow(db.tables.checkpoints, row, BatchConsumer(db), q.event.id);
    }
    OperationStays(db, next, o, AcceptedStage);
  }

  lemma AcceptKeepsAgreement(db: Database, next: Database, r: OutboxRow)
    requires Agreement(db) && AcceptedBy(db, next, r) && AtStage(db, r.operationID, Opened)
    ensures Agreement(next)
  {
    hide OperationInv, AtStage, AppliedEvent, CurrentRevision;
    OperationFacts(db, r.operationID);
    AcceptMovesOwn(db, next, r);
    forall o | o in next.executions
      ensures OperationInv(next, o)
      ensures db.executions[o].batchID in db.batches && !AtStage(next, o, Confirming)
    {
      OperationFacts(db, o);
      if o == r.operationID {
        OneStage(next, o, AcceptedStage, Confirming);
      } else {
        AcceptKeepsOther(db, next, r, o);
      }
    }
    AcceptKeepsRows(db, next, r);
  }

  lemma OneStage(db: Database, o: string, a: Stage, b: Stage)
    requires o in db.executions && db.executions[o].batchID in db.batches && AtStage(db, o, a) && a != b
    ensures !AtStage(db, o, b)
  {
  }

  lemma AcceptKeepsRows(db: Database, next: Database, r: OutboxRow)
    requires OutboxInv(db) && RowsInv(db) && AcceptedBy(db, next, r)
    ensures OutboxInv(next) && RowsInv(next)
  {
    forall row | row in next.tables.checkpoints
      ensures RowInv(next, row)
    {
      if row in db.tables.checkpoints {
        assert RowInv(db, row);
      }
    }
    forall q | q in next.outbox
      ensures OutboxRowInv(next, q)
    {
      assert OutboxRowInv(db, q);
    }
  }

  /** Applying the acceptance event succeeds once and is deduplicated from then on. */
  lemma ApplyKeepsAgreement(db: Database, ev: StartEvidence)
    requires Agreement(db)
    ensures var out := ApplyAcceptance(db, ev);
            && Agreement(out.db)
            && (out.reply.Handled? ==> Loads(db, ev))
            && (out.reply.Handled? && AtStage(db, ev.operationID, Opened)
                ==> out.reply.verdict.VerdictApplied? && Moves(db, out.db, ev, Opened, AcceptedStage))
            && (out.reply.Handled? && !AtStage(db, ev.operationID, Opened)
                ==> out.reply.verdict.Deduplicated? && out.db == db)
            && (!out.reply.Handled? ==> out.db == db)
  {
    hide OperationInv, AppliedEvent, RowInv, CurrentRevision, NoneConfirming;
    if Complete(ev) && Loads(db, ev) && Bound(db, ev) {
      var found := FindAcceptance(db.outbox, ev.operationID, ev.receiptID, ev.batchID);
      if found.Some? {
        var r := found.value;
        assert OutboxRowInv(db, r);
        OperationFacts(db, ev.operationID);
        HasRowIsApplied(db, BatchConsumer(db), r.event.id);
        StageOfAcceptance(db, ev, r);
        if AtStage(db, ev.operationID, Opened) {
          var next := ApplyAcceptance(db, ev).db;
          AcceptKeepsAgreement(db, next, r);
          AcceptMovesOwn(db, next, r);
        }
      }
    }
  }

  lemma StageOfAcceptance(db: Database, ev: StartEvidence, r: OutboxRow)
    requires Loads(db, ev) && Bound(db, ev) && OperationInv(db, ev.operationID)
    requires r in db.outbox && IsAcceptance(r, ev.operationID, ev.receiptID, ev.batchID)
    ensures AppliedEvent(db.tables.checkpoints, BatchConsumer(db), r.event.id) <==> !AtStage(db, ev.operationID, Opened)
    ensures AtStage(db, ev.operationID, Opened) ==> BatchRevision(db, ev.batchID).None?
  {
    hide AppliedEvent, CurrentRevision;
    var stage :| AtStage(db, ev.operationID, stage);
  }

  // ----- opening -----

  lemma NothingAppliedYet(db: Database, new': NewStart)
    requires OutboxInv(db) && RowsInv(db)
    requires new'.operationID !in db.executions
    requires forall o :: o in db.executions ==> db.executions[o].batchID != new'.batchID
    ensures OperationRevision(db, new'.operationID).None? && BatchRevision(db, new'.batchID).None?
  {
    var rows := db.tables.checkpoints;
    forall row | row in rows
      ensures !AppliedFor(row, OperationConsumer(db), new'.operationID)
      ensures !AppliedFor(row, BatchConsumer(db), new'.batchID)
      ensures row.status.Applied? && row.current == Some(row.event.revision)
    {
      assert RowInv(db, row);
      var r :| r in db.outbox && r.event == row.event;
      assert OutboxRowInv(db, r);
      ConsumersDiffer(db.workspace, row.event.aggregateType, OPERATION);
      ConsumersDiffer(db.workspace, row.event.aggregateType, BATCH);
    }
    RevisionKnown(rows, OperationConsumer(db), new'.operationID);
    RevisionKnown(rows, BatchConsumer(db), new'.batchID);
  }

  lemma OpenKeepsOther(db: Database, new': NewStart, o: string)
    requires o in db.executions && OperationInv(db, o) && new'.operationID !in db.executions
    requires new'.batchID !in db.batches && new'.receiptID !in db.receipts && !EventIDTaken(db, new'.eventID)
    ensures var next := StartBatch(db, new', true).db;
            && OperationInv(next, o) && db.executions[o].batchID in db.batches
            && (AtStage(next, o, Confirming) ==> AtStage(db, o, Confirming))
  {
    hide CurrentRevision, AppliedEvent;
    var next := StartBatch(db, new', true).db;
    var stage :| AtStage(db, o, stage);
    OperationStays(db, next, o, stage);
  }

  lemma OpenAddsOwn(db: Database, new': NewStart)
    requires OutboxInv(db) && RowsInv(db)
    requires forall o :: o in db.executions ==> db.executions[o].batchID in db.batches
    requires new'.operationID !in db.executions && new'.batchID !in db.batches && new'.receiptID !in db.receipts
    requires !EventIDTaken(db, new'.eventID)
    ensures var next := StartBatch(db, new', true).db;
            OperationInv(next, new'.operationID) && AtStage(next, new'.operationID, Opened)
  {
    var next := StartBatch(db, new', true).db;
    NothingAppliedYet(db, new');
    assert AtStage(next, new'.operationID, Opened);
    var r := OutboxRow(EventOf(db, new'.eventID, BATCH, new'.batchID, 1, true), StartAccepted, new'.operationID,
                       new'.receiptID);
    assert r in next.outbox && IsAcceptance(r, new'.operationID, new'.receiptID, new'.batchID);
    NewEventHasNoRow(db, BatchConsumer(db), new'.eventID);
    HasRowIsApplied(db, BatchConsumer(db), new'.eventID);
    forall q | q in db.outbox
      ensures q.operationID != new'.operationID
    {
      assert OutboxRowInv(db, q);
    }
  }

  /** Opening an operation puts it at PREPARED 0 with its batch at CREATED 1. */
  lemma OpenKeepsAgreement(db: Database, new': NewStart, safe: bool)
    requires Agreement(db)
    ensures var out := StartBatch(db, new', safe);
            && Agreement(out.db)
            && (if out.reply.Done?
                then new'.operationID in out.db.executions
                     && out.db.executions[new'.operationID].batchID in out.db.batches
                     && AtStage(out.db, new'.operationID, Opened)
                else out.db == db)
  {
    hide OperationInv, AtStage, AppliedEvent, CurrentRevision, OutboxRowInv, RowInv;
    var out := StartBatch(db, new', safe);
    if out.reply.Done? {
      var next := out.db;
      var r := OutboxRow(EventOf(db, new'.eventID, BATCH, new'.batchID, 1, true), StartAccepted, new'.operationID,
                         new'.receiptID);
      forall o | o in db.executions
        ensures db.executions[o].batchID in db.batches
      {
        OperationFacts(db, o);
      }
      OpenAddsOwn(db, new');
      OneStage(next, new'.operationID, Opened, Confirming);
      forall o | o in next.executions
        ensures OperationInv(next, o) && !AtStage(next, o, Confirming)
      {
        if o != new'.operationID {
          OperationFacts(db, o);
          OpenKeepsOther(db, new', o);
        }
      }
      NewRowInOrder(next, r);
      PublishKeepsRows(db, next, r);
    }
  }

  lemma NewRowInOrder(db: Database, r: OutboxRow)
    requires r.operationID in db.executions && r.name.StartAccepted?
    requires r.event == EventOf(db, r.event.id, BATCH, db.executions[r.operationID].batchID, 1, true)
    ensures OutboxRowInv(db, r)
  {
  }

  // ----- runs -----

  datatype Command =
    | CmdStart(new': NewStart, safe: bool)
    | CmdAccept(ev: StartEvidence)
    | CmdClaim(ev: StartEvidence, expected: int, eventID: string, safe: bool)
    | CmdConfirm(ev: StartEvidence, expected: int, batchEventID: string, eventID: string, safe: bool)

  function Execute(db: Database, c: Command): Result {
    match c
    case CmdStart(new', safe) => StartBatch(db, new', safe)
    case CmdAccept(ev) => ApplyAcceptance(db, ev)
    case CmdClaim(ev, expected, eventID, safe) => ClaimStart(db, ev, expected, eventID, safe)
    case CmdConfirm(ev, expected, batchEventID, eventID, safe) =>
      ConfirmRunning(db, ev, expected, batchEventID, eventID, safe)
  }

  function ExecuteAll(db: Database, cs: seq<Command>): Database {
    if cs == [] then db else Execute(ExecuteAll(db, cs[..|cs| - 1]), cs[|cs| - 1]).db
  }

  function EmptyDatabase(workspace: string): Database {
    Database(workspace, map[], map[], map[], [], EMPTY)
  }

  lemma CommandKeepsAgreement(db: Database, c: Command)
    requires Agreement(db)
    ensures Agreement(Execute(db, c).db) && !Execute(db, c).reply.CasFailed? && !Execute(db, c).reply.NotApplied?
  {
    hide Agreement, StartBatch, ApplyAcceptance, ClaimStart, ConfirmRunning;
    match c
    case CmdStart(new', safe) =>
      OpenKeepsAgreement(db, new', safe);
      OpenReply(db, new', safe);
    case CmdAccept(ev) =>
      ApplyKeepsAgreement(db, ev);
      ApplyReply(db, ev);
    case CmdClaim(ev, expected, eventID, safe) => ClaimKeepsAgreement(db, ev, expected, eventID, safe);
    case CmdConfirm(ev, expected, batchEventID, eventID, safe) =>
      ConfirmKeepsAgreement(db, ev, expected, batchEventID, eventID, safe);
  }

  lemma OpenReply(db: Database, new': NewStart, safe: bool)
    ensures var reply := StartBatch(db, new', safe).reply; !reply.CasFailed? && !reply.NotApplied?
  {
  }

  lemma ApplyReply(db: Database, ev: StartEvidence)
    ensures var reply := ApplyAcceptance(db, ev).reply; !reply.CasFailed? && !reply.NotApplied?
  {
  }

  /** Whatever commands run one after the other, with whatever evidence, replays and refusals: the rows
      and the applied events of every operation and batch agree, and no publication is refused. The
      compare-and-sets are put to the test by `StartSerial.StartRacesAreSerial`. */
  lemma {:induction false} StartCommandAgreement(workspace: string, cs: seq<Command>, c: Command)
    ensures var db := ExecuteAll(EmptyDatabase(workspace), cs);
            && Agreement(db)
            && !Execute(db, c).reply.CasFailed? && !Execute(db, c).reply.NotApplied?
  {
    hide Agreement, Execute;
    if cs == [] {
      EmptyAgreement(workspace);
    } else {
      StartCommandAgreement(workspace, cs[..|cs| - 1], cs[|cs| - 1]);
      CommandKeepsAgreement(ExecuteAll(EmptyDatabase(workspace), cs[..|cs| - 1]), cs[|cs| - 1]);
    }
    CommandKeepsAgreement(ExecuteAll(EmptyDatabase(workspace), cs), c);
  }

  lemma EmptyAgreement(workspace: string)
    ensures Agreement(EmptyDatabase(workspace))
  {
  }

  /** Spelled out: PREPARED 0 with CREATED 1, STARTED 1 with CREATED 1, or SUCCEEDED 2 with
      RUNNING 2, each with the highest applied revisions that go with it. */
  lemma ReachableStages(db: Database, o: string)
    requires Agreement(db) && o in db.executions
    ensures db.executions[o].batchID in db.batches
    ensures var e := db.executions[o];
            var b, op, bt := db.batches[e.batchID], OperationRevision(db, o), BatchRevision(db, e.batchID);
            || ((e.status, e.revision) == (G.Prepared, 0) && b == Batch(G.Created, Some(1))
                && op == None && (bt == None || bt == Some(1)))
            || ((e.status, e.revision) == (G.Started, 1) && b == Batch(G.Created, Some(1))
                && op == Some(1) && bt == Some(1))
            || ((e.status, e.revision) == (G.Succeeded, 2) && b == Batch(G.RunningBatch, Some(2))
                && op == Some(2) && bt == Some(2))
  {
    hide CurrentRevision, AppliedEvent, OutboxInv, RowsInv;
    OperationFacts(db, o);
  }

  // ----- the state graph -----

  predicate OperationEdge(e: Execution, f: Execution) {
    || (f.status == e.status && f.revision == e.revision)
    || G.TransitionOperation(e.status, e.revision, e.revision, f.status, false) == G.Moved(f.status, f.revision)
  }

  predicate BatchEdge(b: Batch, c: Batch) {
    || b == c
    || (b.revision.Some? && c.revision.Some?
        && G.TransitionBatch(b.status, b.revision.value, b.revision.value, c.status)
            == G.Moved(c.status, c.revision.value))
  }

  lemma PublishKeepsSources(db: Database, event: Event, name: EventName, operationID: string, receiptID: string)
    ensures var next := Publish(db, event, name, operationID, receiptID).db;
            next.executions == db.executions && next.batches == db.batches
  {
  }

  /** All rows go along edges of the state graph, or stay. */
  predicate AllEdges(db: Database, next: Database) {
    && (forall o :: o in db.executions ==> o in next.executions && OperationEdge(db.executions[o], next.executions[o]))
    && (forall b :: b in db.batches ==> b in next.batches && BatchEdge(db.batches[b], next.batches[b]))
  }

  predicate RevisionsFit(db: Database) {
    forall o :: o in db.executions ==>
      && (db.executions[o].status.Prepared? ==> db.executions[o].revision == 0)
      && (db.executions[o].status.Started? ==> db.executions[o].revision == 1)
  }

  lemma ClaimEdges(db: Database, ev: StartEvidence, expected: int, eventID: string, safe: bool)
    requires RevisionsFit(db)
    ensures AllEdges(db, ClaimStart(db, ev, expected, eventID, safe).db)
  {
    hide AcceptedApplied, Publish;
    var work := ClaimRow(db, ev, expected);
    if work.Some? {
      PublishKeepsSources(work.value, EventOf(db, eventID, OPERATION, ev.operationID, 1, safe), StartClaimed,
                          ev.operationID, ev.receiptID);
    }
  }

  lemma ConfirmRowEdges(db: Database, x: Database, ev: StartEvidence, expected: int)
    requires RevisionsFit(db) && ActivateBatch(db, ev) == Some(x) && ConfirmRow(x, ev, expected).Some?
    ensures AllEdges(db, ConfirmRow(x, ev, expected).value)
  {
  }

  lemma EdgesCarry(db: Database, next: Database, published: Database)
    requires AllEdges(db, next) && published.executions == next.executions && published.batches == next.batches
    ensures AllEdges(db, published)
  {
  }

  lemma NoMoveIsAllowed(db: Database)
    ensures AllEdges(db, db)
  {
  }

  lemma ConfirmEdges(db: Database, ev: StartEvidence, expected: int, batchEventID: string, eventID: string, safe: bool)
    requires RevisionsFit(db)
    ensures AllEdges(db, ConfirmRunning(db, ev, expected, batchEventID, eventID, safe).db)
  {
    hide Publish, ActivateBatch, ConfirmRow, ConfirmReplay, AllEdges, Complete, Loads, Bound;
    NoMoveIsAllowed(db);
    var activated := ActivateBatch(db, ev);
    if activated.Some? && ConfirmRow(activated.value, ev, expected).Some? {
      var work := ConfirmRow(activated.value, ev, expected).value;
      var first := EventOf(db, batchEventID, BATCH, ev.batchID, 2, safe);
      var published := Publish(work, first, StartActivated, ev.operationID, ev.receiptID).db;
      ConfirmRowEdges(db, activated.value, ev, expected);
      PublishKeepsSources(work, first, StartActivated, ev.operationID, ev.receiptID);
      var second := EventOf(db, eventID, OPERATION, ev.operationID, 2, safe);
      PublishKeepsSources(published, second, StartSucceeded, ev.operationID, ev.receiptID);
      EdgesCarry(db, work, Publish(published, second, StartSucceeded, ev.operationID, ev.receiptID).db);
    }
  }

  lemma AgreedRevisionsFit(db: Database)
    requires Agreement(db)
    ensures RevisionsFit(db)
  {
    hide Agreement;
    forall o | o in db.executions
      ensures db.executions[o].status.Prepared? ==> db.executions[o].revision == 0
      ensures db.executions[o].status.Started? ==> db.executions[o].revision == 1
    {
      ReachableStages(db, o);
    }
  }

  /** Every commit is, for every operation and every batch, an edge of the state graph with the same
      new revision, or no change at all. */
  lemma CommitsAreEdges(db: Database, c: Command)
    requires Agreement(db)
    ensures var next := Execute(db, c).db;
            && (forall o :: o in db.executions ==> o in next.executions && OperationEdge(db.executions[o],
                next.executions[o]))
            && (forall b :: b in db.batches ==> b in next.batches && BatchEdge(db.batches[b], next.batches[b]))
  {
    hide Agreement, Process, FindAcceptance, EventIDTaken, ClaimStart, ConfirmRunning;
    AgreedRevisionsFit(db);
    match c
    case CmdStart(_, _) =>
    case CmdAccept(_) =>
    case CmdClaim(ev, expected, eventID, safe) => ClaimEdges(db, ev, expected, eventID, safe);
    case CmdConfirm(ev, expected, batchEventID, eventID, safe) =>
      ConfirmEdges(db, ev, expected, batchEventID, eventID, safe);
  }

  // ----- the service, statement by statement -----

  /** Each command works on the rows of its own transaction and commits them at the end; leaving a
      method early is the rollback. */
  class AdminExecutionService {
    var db: Database

    constructor (workspace: string)
      ensures db == EmptyDatabase(workspace)
    {
      db := EmptyDatabase(workspace);
    }

    method ApplyStartAcceptance(ev: StartEvidence) returns (reply: Reply)
      modifies this
      ensures Result(db, reply) == ApplyAcceptance(old(db), ev)
    {
      if !Complete(ev) {
        return Invalid;
      }
      if !Loads(db, ev) {
        return NotFound;
      }
      if !Bound(db, ev) {
        return Invalid;
      }
      var row := FindAcceptance(db.outbox, ev.operationID, ev.receiptID, ev.batchID);
      if row.None? {
        return Invalid;
      }
      var processor := new EventProcessor(db.tables);
      var verdict := processor.ProcessEvent(Delivery(row.value.event, BatchConsumer(db), None));
      if verdict.Raised? {
        return Unsafe;
      }
      db := db.(tables := processor.tables);
      return Handled(verdict);
    }

    method Claim(ev: StartEvidence, expected: int, eventID: string, safe: bool) returns (reply: Reply)
      modifies this
      ensures Result(db, reply) == ClaimStart(old(db), ev, expected, eventID, safe)
    {
      if !Complete(ev) {
        return Invalid;
      }
      if !Loads(db, ev) {
        return NotFound;
      }
      if !Bound(db, ev) {
        return Invalid;
      }
      var e := db.executions[ev.operationID];
      var b := db.batches[e.batchID];
      if e.status.Started? && expected == 0 && e.evidence.Some? && e.evidence.value.runID == ev.runID
         && e.evidence.value.kind.Claim? && e.evidence.value.ref == ev.evidenceRef {
        return Done(G.Started, 1);
      }
      if e.revision != expected {
        return RevisionConflict(e.revision);
      }
      if !AcceptedApplied(db, ev.operationID, ev.receiptID, ev.batchID) {
        return Invalid;
      }
      if !e.status.Prepared? || !b.status.Created? {
        return Invalid;
      }
      if b.revision != Some(1) {
        return Invalid;
      }
      var claimed := ClaimRow(db, ev, expected);
      if claimed.None? {
        return CasFailed;
      }
      var work := claimed.value;
      var published := Publish(work, EventOf(db, eventID, OPERATION, ev.operationID, 1, safe), StartClaimed,
                               ev.operationID, ev.receiptID);
      if !published.reply.Handled? {
        return published.reply;
      }
      db := published.db;
      return Done(G.Started, 1);
    }

    method ConfirmBatchRunning(ev: StartEvidence, expected: int, batchEventID: string, operationEventID: string,
                               safe: bool) returns (reply: Reply)
      modifies this
      ensures Result(db, reply) == ConfirmRunning(old(db), ev, expected, batchEventID, operationEventID, safe)
    {
      if !Complete(ev) {
        return Invalid;
      }
      if !Loads(db, ev) {
        return NotFound;
      }
      if !Bound(db, ev) {
        return Invalid;
      }
      var e := db.executions[ev.operationID];
      var b := db.batches[e.batchID];
      if ConfirmReplay(e, b, ev, expected) {
        return Done(G.Succeeded, 2);
      }
      if e.revision != expected {
        return RevisionConflict(e.revision);
      }
      if !e.status.Started? || !b.status.Created? {
        return Invalid;
      }
      if b.revision != Some(1) || e.evidence.None? || e.evidence.value.runID != ev.runID {
        return Invalid;
      }
      var activated := ActivateBatch(db, ev);
      if activated.None? {
        return CasFailed;
      }
      var confirmed := ConfirmRow(activated.value, ev, expected);
      if confirmed.None? {
        return CasFailed;
      }
      var first := Publish(confirmed.value, EventOf(db, batchEventID, BATCH, ev.batchID, 2, safe), StartActivated,
                           ev.operationID, ev.receiptID);
      if !first.reply.Handled? {
        return first.reply;
      }
      var second := Publish(first.db, EventOf(db, operationEventID, OPERATION, ev.operationID, 2, safe), StartSucceeded,
                            ev.operationID, ev.receiptID);
      if !second.reply.Handled? {
        return second.reply;
      }
      db := second.db;
      return Done(G.Succeeded, 2);
    }
  }
}
