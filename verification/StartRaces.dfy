/** Many transactions run the commands of a start at once, statement by statement
    (application/admin_execution.py, infrastructure/db/admin_execution.py). A statement reads what
    others have committed and what its own transaction has written; a row lock, the key of an outbox
    event, the advisory lock of an aggregate and that of the workspace's operation stream are held
    until the transaction ends. Every run commits exactly what its commands would have done one after
    the other. */
module StartRaces {
  import opened CheckpointModel
  import opened EventProjection
  import opened StartCommand
  import PR = ProjectionRaces
  import G = StateGraph

  /** What a transaction holds until it ends: locked rows, the primary keys of its uncommitted events,
      the advisory locks of aggregates, and the one of a workspace's operation stream. */
  datatype Lock =
    | ExecutionRow(operationID: string)
    | BatchRow(batchID: string)
    | OutboxKey(eventID: string)
    | Fence(key: PR.LockKey)
    | StreamFence(workspace: string)

  /** What a transaction has written and not committed. */
  datatype Work = Work(
    execution: Option<Execution>,
    batch: Option<Batch>,
    outbox: seq<OutboxRow>,
    rows: seq<Row>,
    stream: seq<StreamEntry>,
    quarantine: seq<Quarantine>)

  const NO_WORK := Work(None, None, [], [], [], [])

  /** How far the processor has come with a delivery; `Read` holds the revision it has read. */
  datatype Gate = Entered | Unseen | Fenced | Rechecked | Read(current: Option<int>)

  /** `Loaded` holds the rows as `load` has returned them. */
  datatype Point =
    | Begun
    | Loaded(e: Execution, b: Batch)
    | Cleared
    | Activated
    | ToPublish
    | Processing(d: Delivery, gate: Gate)
    | Finished(reply: Reply)
    | Ended(reply: Reply)

  datatype Session = Session(c: Command, at: Point, work: Work)

  datatype World = World(db: Database, locks: map<Lock, nat>, sessions: map<nat, Session>, done: seq<Command>)

  datatype Action =
    | Start(new': NewStart, safe: bool)
    | Open(i: nat, c: Command)
    | Run(i: nat)
    | Commit(i: nat)
    | Abort(i: nat)

  // ----- statements -----

  /** The database as the transaction of `c` sees it. */
  function View(db: Database, c: Command, work: Work): Database
    requires !c.CmdStart?
  {
    var t := db.tables;
    db.(executions := if work.execution.Some? then db.executions[c.ev.operationID := work.execution.value]
        else db.executions,
        batches := if work.batch.Some? then db.batches[c.ev.batchID := work.batch.value] else db.batches,
        outbox := db.outbox + work.outbox,
        tables := Tables(t.checkpoints + work.rows, t.stream + work.stream, t.quarantine + work.quarantine))
  }

  /** The events a command publishes, in order. */
  function Events(db: Database, c: Command): seq<OutboxRow>
    requires !c.CmdStart?
  {
    match c
    case CmdAccept(_) => []
    case CmdClaim(ev, _, eventID, safe) =>
      [OutboxRow(EventOf(db, eventID, OPERATION, ev.operationID, 1, safe), StartClaimed, ev.operationID, ev.receiptID)]
    case CmdConfirm(ev, _, batchEventID, eventID, safe) =>
      [OutboxRow(EventOf(db, batchEventID, BATCH, ev.batchID, 2, safe), StartActivated, ev.operationID, ev.receiptID),
       OutboxRow(EventOf(db, eventID, OPERATION, ev.operationID, 2, safe), StartSucceeded, ev.operationID,
                 ev.receiptID)]
  }

  function DeliveryOf(r: OutboxRow): Delivery {
    Delivery(r.event, Consumer(r.event.workspace, r.event.aggregateType), None)
  }

  function FinalReply(c: Command): Reply {
    if c.CmdClaim? then Done(G.Started, 1) else Done(G.Succeeded, 2)
  }

  /** Where a statement leads, what has been written then, and which locks it needs. */
  datatype Move = Move(at: Point, work: Work, needs: set<Lock>)

  /** Validates, loads and locks both rows, and checks what was loaded. */
  function Load(db: Database, c: Command): Move
    requires !c.CmdStart?
  {
    var ev := c.ev;
    if !Complete(ev) then Move(Ended(Invalid), NO_WORK, {})
    else if !Loads(db, ev) then Move(Ended(NotFound), NO_WORK, {})
    else
      var e := db.executions[ev.operationID];
      var b := db.batches[e.batchID];
      Move(if !Bound(db, ev) then Ended(Invalid) else AfterLoad(c, e, b), NO_WORK,
           {ExecutionRow(ev.operationID), BatchRow(e.batchID)})
  }

  function AfterLoad(c: Command, e: Execution, b: Batch): Point
    requires !c.CmdStart?
  {
    match c
    case CmdAccept(_) => Loaded(e, b)
    case CmdClaim(ev, expected, _, _) =>
      if ClaimReplay(e, ev, expected) then Finished(Done(G.Started, 1))
      else if e.revision != expected then Ended(RevisionConflict(e.revision))
      else Loaded(e, b)
    case CmdConfirm(ev, expected, _, _, _) =>
      if ConfirmReplay(e, b, ev, expected) then Finished(Done(G.Succeeded, 2))
      else if e.revision != expected then Ended(RevisionConflict(e.revision))
      else if !e.status.Started? || !b.status.Created? then Ended(Invalid)
      else if b.revision != Some(1) || e.evidence.None? || e.evidence.value.runID != ev.runID then Ended(Invalid)
      else Cleared
  }

  /** The unlocked read of the outbox: of the acceptance's checkpoint for a claim, of the acceptance
      itself for its application. */
  function Lookup(v: Database, s: Session, e: Execution, b: Batch): Move
    requires !s.c.CmdStart?
  {
    var ev := s.c.ev;
    if s.c.CmdClaim? then
      if !AcceptedApplied(v, ev.operationID, ev.receiptID, ev.batchID) then Move(Ended(Invalid), s.work, {})
      else if !e.status.Prepared? || !b.status.Created? || b.revision != Some(1) then Move(Ended(Invalid), s.work, {})
      else Move(Cleared, s.work, {})
    else
      match FindAcceptance(v.outbox, ev.operationID, ev.receiptID, ev.batchID)
      case None => Move(Ended(Invalid), s.work, {})
      case Some(row) =>
        var d := Delivery(row.event, BatchConsumer(v), None);
        if d.event.schemaVersion != 1 then
          Move(Finished(Handled(Quarantined)), s.work.(quarantine := Isolated(v.tables, d)), {})
        else Move(Processing(d, Entered), s.work, {})
  }

  function Isolated(t: Tables, d: Delivery): seq<Quarantine> {
    if IsQuarantined(t.quarantine, d.consumer, d.event.id) then []
    else [Quarantine(d.consumer, d.event.id, UnsupportedSchema)]
  }

  /** The first compare-and-set, on the rows as they are now. */
  function Update(v: Database, s: Session): Move
    requires !s.c.CmdStart?
  {
    var ev := s.c.ev;
    if s.c.CmdConfirm? then
      match ActivateBatch(v, ev)
      case None => Move(Ended(CasFailed), s.work, {BatchRow(ev.batchID)})
      case Some(x) => Move(Activated, s.work.(batch := Some(x.batches[ev.batchID])), {BatchRow(ev.batchID)})
    else if s.c.CmdClaim? then Updated(s, ClaimRow(v, ev, s.c.expected))
    else Move(Ended(Invalid), s.work, {})
  }

  /** A compare-and-set on the operation. */
  function Updated(s: Session, x: Option<Database>): Move
    requires !s.c.CmdStart?
  {
    var op := s.c.ev.operationID;
    if x.None? || op !in x.value.executions then Move(Ended(CasFailed), s.work, {ExecutionRow(op)})
    else Move(ToPublish, s.work.(execution := Some(x.value.executions[op])), {ExecutionRow(op)})
  }

  /** Enqueues the next event, or returns when there is none. */
  function Enqueue(v: Database, s: Session): Move
    requires !s.c.CmdStart?
  {
    var n, events := |s.work.outbox|, Events(v, s.c);
    if n >= |events| then Move(Finished(FinalReply(s.c)), s.work, {})
    else
      var r := events[n];
      if !r.event.safe then Move(Ended(Unsafe), s.work, {})
      else if EventIDTaken(v, r.event.id) then Move(Ended(KeyTaken), s.work, {OutboxKey(r.event.id)})
      else Move(Processing(DeliveryOf(r), Entered), s.work.(outbox := s.work.outbox + [r]), {OutboxKey(r.event.id)})
  }

  /** One statement of the processor. */
  function ProcessNext(v: Database, s: Session, d: Delivery, gate: Gate): Move
    requires !s.c.CmdStart?
  {
    var rows := v.tables.checkpoints;
    match gate
    case Entered =>
      if HasRow(rows, d.consumer, d.event.id) then Concluded(s, Deduplicated, s.work)
      else Move(Processing(d, Unseen), s.work, {})
    case Unseen => Move(Processing(d, Fenced), s.work, {Fence(PR.KeyOfDelivery(d))})
    case Fenced =>
      if HasRow(rows, d.consumer, d.event.id) then Concluded(s, Deduplicated, s.work)
      else Move(Processing(d, Rechecked), s.work, {})
    case Rechecked => Move(Processing(d, Read(CurrentRevision(rows, d.consumer, d.event.aggregateID))), s.work, {})
    case Read(current) =>
      var out := Decide(v.tables, d, current);
      var m := Concluded(s, out.verdict, Written(v, s.work, d, out.verdict, current));
      if out.verdict.VerdictApplied? then m.(needs := {StreamFence(d.event.workspace)}) else m
  }

  /** What the processor writes with its verdict; an existing row is left alone. */
  function Written(v: Database, work: Work, d: Delivery, verdict: Verdict, current: Option<int>): Work {
    var entry := if verdict.VerdictApplied? then [EntryOf(d.event)] else [];
    var row := if HasRow(v.tables.checkpoints, d.consumer, d.event.id) then []
               else match verdict
                 case VerdictApplied => [Row(d.consumer, d.event, Some(d.event.revision), Applied)]
                 case VerdictOutOfOrder => [Row(d.consumer, d.event, current, OutOfOrder)]
                 case VerdictGapBlocked => [Row(d.consumer, d.event, current, GapBlocked)]
                 case _ => [];
    work.(rows := work.rows + row, stream := work.stream + entry)
  }

  /** The application of an acceptance returns any verdict; a publication needs its event applied. */
  function Concluded(s: Session, verdict: Verdict, work: Work): Move {
    if verdict.Raised? then Move(Ended(Unsafe), work, {})
    else if s.c.CmdAccept? then Move(Finished(Handled(verdict)), work, {})
    else if verdict.VerdictApplied? then Move(ToPublish, work, {})
    else Move(Ended(NotApplied), work, {})
  }

  function Next(db: Database, s: Session): Move
    requires !s.c.CmdStart?
  {
    var v := View(db, s.c, s.work);
    match s.at
    case Begun => Load(db, s.c)
    case Loaded(e, b) => Lookup(v, s, e, b)
    case Cleared => Update(v, s)
    case Activated => Updated(s, if s.c.CmdConfirm? then ConfirmRow(v, s.c.ev, s.c.expected) else None)
    case ToPublish => Enqueue(v, s)
    case Processing(d, gate) => ProcessNext(v, s, d, gate)
    case _ => Move(s.at, s.work, {})
  }

  // ----- runs -----

  function OwnedBy(w: World, i: nat): set<Lock> {
    set k | k in w.locks && w.locks[k] == i
  }

  predicate Busy(s: Session) {
    !s.at.Finished? && !s.at.Ended?
  }

  /** A statement waits for locks that others hold; so does the insertion of an acceptance. */
  predicate Enabled(w: World, a: Action) {
    match a
    case Start(new', _) => OutboxKey(new'.eventID) !in w.locks
    case Open(i, c) => i !in w.sessions && !c.CmdStart?
    case Run(i) =>
      && i in w.sessions && !w.sessions[i].c.CmdStart? && Busy(w.sessions[i])
      && forall k | k in Next(w.db, w.sessions[i]).needs :: k in w.locks ==> w.locks[k] == i
    case Commit(i) => i in w.sessions && !w.sessions[i].c.CmdStart? && w.sessions[i].at.Finished?
    case Abort(i) => i in w.sessions && !w.sessions[i].at.Ended?
  }

  function Granted(locks: map<Lock, nat>, needs: set<Lock>, i: nat): map<Lock, nat> {
    locks + map k | k in needs :: i
  }

  /** The transaction ends on `db`, and its locks go with it. */
  function End(w: World, i: nat, reply: Reply, db: Database): World
    requires i in w.sessions
  {
    World(db, w.locks - OwnedBy(w, i), w.sessions[i := Session(w.sessions[i].c, Ended(reply), NO_WORK)], w.done)
  }

  function Apply(w: World, a: Action): World
    requires Enabled(w, a)
  {
    match a
    case Start(new', safe) => w.(db := StartBatch(w.db, new', safe).db, done := w.done + [CmdStart(new', safe)])
    case Open(i, c) => w.(sessions := w.sessions[i := Session(c, Begun, NO_WORK)])
    case Run(i) =>
      var s := w.sessions[i];
      var m := Next(w.db, s);
      if m.at.Ended? then End(w, i, m.at.reply, w.db)
      else w.(locks := Granted(w.locks, m.needs, i), sessions := w.sessions[i := Session(s.c, m.at, m.work)])
    case Commit(i) =>
      var s := w.sessions[i];
      End(w, i, s.at.reply, View(w.db, s.c, s.work)).(done := w.done + [s.c])
    case Abort(i) => End(w, i, Unsafe, w.db)
  }

  predicate Reaches(w: World, acts: seq<Action>, v: World)
    decreases |acts|
  {
    if acts == [] then w == v
    else Enabled(w, acts[0]) && Reaches(Apply(w, acts[0]), acts[1..], v)
  }

  function Empty(workspace: string): World {
    World(EmptyDatabase(workspace), map[], map[], [])
  }

  // ----- what a session can rely on -----

  /** The rows of the evidence exist, fit it, and are locked. */
  predicate HoldsRows(db: Database, owned: set<Lock>, ev: StartEvidence) {
    && Complete(ev) && Loads(db, ev) && Bound(db, ev)
    && ExecutionRow(ev.operationID) in owned && BatchRow(ev.batchID) in owned
  }

  /** The guards of a command have let it through. */
  predicate Ready(db: Database, c: Command)
    requires !c.CmdStart? && Loads(db, c.ev) && Bound(db, c.ev)
  {
    var e, b := db.executions[c.ev.operationID], db.batches[c.ev.batchID];
    match c
    case CmdAccept(_) => true
    case CmdClaim(ev, expected, _, _) =>
      && !ClaimReplay(e, ev, expected) && e.revision == expected && e.status.Prepared? && b == Batch(G.Created, Some(1))
      && AcceptedApplied(db, ev.operationID, ev.receiptID, ev.batchID)
    case CmdConfirm(ev, expected, _, _, _) =>
      && !ConfirmReplay(e, b, ev, expected) && e.revision == expected && e.status.Started?
          && b == Batch(G.Created, Some(1))
      && e.evidence.Some? && e.evidence.value.runID == ev.runID
  }

  function AppliedRow(r: OutboxRow): Row {
    Row(DeliveryOf(r).consumer, r.event, Some(r.event.revision), Applied)
  }

  function AppliedRows(rs: seq<OutboxRow>): (rows: seq<Row>)
    ensures |rows| == |rs| && forall k :: 0 <= k < |rs| ==> rows[k] == AppliedRow(rs[k])
  {
    if rs == [] then [] else [AppliedRow(rs[0])] + AppliedRows(rs[1..])
  }

  function Entries(rs: seq<OutboxRow>): (es: seq<StreamEntry>)
    ensures |es| == |rs| && forall k :: 0 <= k < |rs| ==> es[k] == EntryOf(rs[k].event)
  {
    if rs == [] then [] else [EntryOf(rs[0].event)] + Entries(rs[1..])
  }

  function NewExecution(db: Database, c: Command): Option<Execution>
    requires !c.CmdStart? && c.ev.operationID in db.executions
  {
    var e := db.executions[c.ev.operationID];
    match c
    case CmdAccept(_) => None
    case CmdClaim(ev, _, _, _) =>
      Some(e.(status := G.Started, revision := 1, evidence := Some(Evidence(Claim, ev.evidenceRef, ev.runID))))
    case CmdConfirm(ev, _, _, _, _) =>
      Some(e.(status := G.Succeeded, revision := 2, evidence := Some(Evidence(Activation, ev.evidenceRef, ev.runID))))
  }

  /** What a publishing command has written when `queued` events are enqueued and `processed` applied. */
  function WorkOf(db: Database, c: Command, queued: nat, processed: nat): Work
    requires !c.CmdStart? && c.ev.operationID in db.executions && processed <= queued <= |Events(db, c)|
  {
    Work(NewExecution(db, c), if c.CmdConfirm? then Some(Batch(G.RunningBatch, Some(2))) else None,
         Events(db, c)[..queued], AppliedRows(Events(db, c)[..processed]), Entries(Events(db, c)[..processed]), [])
  }

  /** The enqueued events are safe, new, distinct, and their keys held. */
  predicate QueuedInOrder(db: Database, owned: set<Lock>, rs: seq<OutboxRow>) {
    && (forall k :: 0 <= k < |rs| ==>
          rs[k].event.safe && !EventIDTaken(db, rs[k].event.id) && OutboxKey(rs[k].event.id) in owned)
    && (forall k, l :: 0 <= k < l < |rs| ==> rs[k].event.id != rs[l].event.id)
  }

  predicate FencesHeld(owned: set<Lock>, rs: seq<OutboxRow>) {
    forall k :: 0 <= k < |rs| ==> Fence(PR.KeyOfDelivery(DeliveryOf(rs[k]))) in owned
  }

  predicate Publishing(db: Database, owned: set<Lock>, s: Session, queued: nat, processed: nat) {
    && (s.c.CmdClaim? || s.c.CmdConfirm?)
    && HoldsRows(db, owned, s.c.ev) && Ready(db, s.c)
    && processed <= queued <= |Events(db, s.c)|
    && s.work == WorkOf(db, s.c, queued, processed)
    && QueuedInOrder(db, owned, Events(db, s.c)[..queued])
    && FencesHeld(owned, Events(db, s.c)[..processed])
  }

  /** The acceptance that the session applies. */
  predicate Accepting(db: Database, owned: set<Lock>, s: Session, d: Delivery) {
    && s.c.CmdAccept? && HoldsRows(db, owned, s.c.ev)
    && var found := FindAcceptance(db.outbox, s.c.ev.operationID, s.c.ev.receiptID, s.c.ev.batchID);
    && found.Some? && d == Delivery(found.value.event, BatchConsumer(db), None)
  }

  predicate GateInv(db: Database, owned: set<Lock>, work: Work, d: Delivery, gate: Gate) {
    var rows := db.tables.checkpoints + work.rows;
    && (gate.Fenced? || gate.Rechecked? || gate.Read? ==> Fence(PR.KeyOfDelivery(d)) in owned)
    && (gate.Rechecked? || gate.Read? ==> !HasRow(rows, d.consumer, d.event.id))
    && (gate.Read? ==> gate.current == CurrentRevision(rows, d.consumer, d.event.aggregateID))
  }

  predicate ProcessingInv(db: Database, owned: set<Lock>, s: Session, d: Delivery, gate: Gate) {
    && GateInv(db, owned, s.work, d, gate)
    && (if s.c.CmdAccept? then Accepting(db, owned, s, d) && s.work == NO_WORK
        else
          var n := |s.work.outbox|;
          && n > 0 && Publishing(db, owned, s, n, n - 1)
          && d == DeliveryOf(Events(db, s.c)[n - 1]))
  }

  /** An acceptance that has been dealt with: deduplicated, or decided on the revision it read. */
  predicate AcceptanceDone(db: Database, owned: set<Lock>, s: Session, d: Delivery, reply: Reply) {
    && Accepting(db, owned, s, d) && reply.Handled?
    && (|| (HasRow(db.tables.checkpoints, d.consumer, d.event.id) && reply.verdict.Deduplicated? && s.work == NO_WORK)
        || (&& !HasRow(db.tables.checkpoints, d.consumer, d.event.id)
            && Fence(PR.KeyOfDelivery(d)) in owned
            && var current := CurrentRevision(db.tables.checkpoints, d.consumer, d.event.aggregateID);
            && reply.verdict == Decide(db.tables, d, current).verdict && !reply.verdict.Raised?
            && s.work == Written(db, NO_WORK, d, reply.verdict, current)))
  }

  predicate FinishedInv(db: Database, owned: set<Lock>, s: Session, reply: Reply) {
    match s.c
    case CmdStart(_, _) => false
    case CmdAccept(ev) =>
      var found := FindAcceptance(db.outbox, ev.operationID, ev.receiptID, ev.batchID);
      found.Some? && AcceptanceDone(db, owned, s, Delivery(found.value.event, BatchConsumer(db), None), reply)
    case CmdClaim(ev, expected, _, _) =>
      && reply == FinalReply(s.c)
      && (|| Publishing(db, owned, s, 1, 1)
          || (HoldsRows(db, owned, ev) && s.work == NO_WORK && ClaimReplay(db.executions[ev.operationID], ev,
              expected)))
    case CmdConfirm(ev, expected, _, _, _) =>
      && reply == FinalReply(s.c)
      && (|| Publishing(db, owned, s, 2, 2)
          || (HoldsRows(db, owned, ev) && s.work == NO_WORK
              && ConfirmReplay(db.executions[ev.operationID], db.batches[ev.batchID], ev, expected)))
  }

  /** What holds of a session that owns the locks `owned`. */
  predicate SessionInv(db: Database, owned: set<Lock>, s: Session) {
    !s.c.CmdStart? &&
    match s.at
    case Begun => s.work == NO_WORK
    case Loaded(e, b) =>
      && HoldsRows(db, owned, s.c.ev) && s.work == NO_WORK && !s.c.CmdConfirm?
      && e == db.executions[s.c.ev.operationID] && b == db.batches[s.c.ev.batchID]
      && (s.c.CmdClaim? ==> !ClaimReplay(e, s.c.ev, s.c.expected) && e.revision == s.c.expected)
    case Cleared => !s.c.CmdAccept? && HoldsRows(db, owned, s.c.ev) && Ready(db, s.c) && s.work == NO_WORK
    case Activated =>
      && s.c.CmdConfirm? && HoldsRows(db, owned, s.c.ev) && Ready(db, s.c)
      && s.work == NO_WORK.(batch := Some(Batch(G.RunningBatch, Some(2))))
    case ToPublish => Publishing(db, owned, s, |s.work.outbox|, |s.work.outbox|)
    case Processing(d, gate) => ProcessingInv(db, owned, s, d, gate)
    case Finished(reply) => FinishedInv(db, owned, s, reply)
    case Ended(reply) => !reply.CasFailed? && !reply.NotApplied?
  }
}
