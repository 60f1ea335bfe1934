/** Transactions of different operations do wait for each other: the first one to append to the
    operation stream of the workspace keeps the others from appending until it ends. */
module StartWaits {
  import opened CheckpointModel
  import opened EventProjection
  import opened StartCommand
  import opened StartRaces
  import opened StartSerial
  import opened StartProgress
  import PR = ProjectionRaces

  lemma {:induction false} LastAction(w: World, acts: seq<Action>, v: World, a: Action)
    requires Reaches(w, acts, v) && Enabled(v, a)
    ensures Reaches(w, acts + [a], Apply(v, a))
    decreases |acts|
  {
    hide Enabled, Apply;
    if acts == [] {
      NoAction(Apply(v, a));
      FirstAction(w, a, [], Apply(v, a));
      assert [a] + [] == [a] == acts + [a];
    } else {
      LastAction(Apply(w, acts[0]), acts[1..], v, a);
      assert (acts + [a])[1..] == acts[1..] + [a];
    }
  }

  /** The transaction makes one statement that does not end it. */
  lemma Moved(w: World, acts: seq<Action>, v: World, i: nat, m: Move) returns (more: seq<Action>, u: World)
    requires Reaches(w, acts, v) && i in v.sessions && !v.sessions[i].c.CmdStart? && Busy(v.sessions[i])
    requires Next(v.db, v.sessions[i]) == m && !m.at.Ended?
    requires forall k :: k in m.needs && k in v.locks ==> v.locks[k] == i
    ensures Reaches(w, more, u)
    ensures u == v.(locks := Granted(v.locks, m.needs, i),
                    sessions := v.sessions[i := Session(v.sessions[i].c, m.at, m.work)])
  {
    hide Next, Reaches;
    LastAction(w, acts, v, Run(i));
    more, u := acts + [Run(i)], Apply(v, Run(i));
  }

  /** The acceptance `r` of the evidence waits to be applied. */
  predicate Ripe(db: Database, ev: StartEvidence, r: OutboxRow) {
    && Complete(ev) && Loads(db, ev) && Bound(db, ev) && Plain(r)
    && FindAcceptance(db.outbox, ev.operationID, ev.receiptID, ev.batchID) == Some(r)
    && !HasRow(db.tables.checkpoints, BatchConsumer(db), r.event.id)
  }

  function Applying(db: Database, r: OutboxRow): Delivery {
    Delivery(r.event, BatchConsumer(db), None)
  }

  /** What the load returns. */
  function LoadedRows(db: Database, ev: StartEvidence): Point
    requires Loads(db, ev)
  {
    Loaded(db.executions[ev.operationID], db.batches[db.executions[ev.operationID].batchID])
  }

  /** The statements up to the processor. */
  lemma LoadPath(db: Database, ev: StartEvidence, r: OutboxRow)
    requires Ripe(db, ev, r)
    ensures var c := CmdAccept(ev);
            && Next(db, Session(c, Begun, NO_WORK))
               == Move(LoadedRows(db, ev), NO_WORK, {ExecutionRow(ev.operationID), BatchRow(ev.batchID)})
            && Next(db, Session(c, LoadedRows(db, ev), NO_WORK))
               == Move(Processing(Applying(db, r), Entered), NO_WORK, {})
  {
    ViewOfNothing(db, CmdAccept(ev));
    hide Complete, View, HasRow;
  }

  /** The statements of the processor up to the read of the revision. */
  lemma GatePath(db: Database, ev: StartEvidence, r: OutboxRow)
    requires Ripe(db, ev, r)
    ensures var c, d := CmdAccept(ev), Applying(db, r);
            var current := CurrentRevision(db.tables.checkpoints, d.consumer, d.event.aggregateID);
            && Next(db, Session(c, Processing(d, Entered), NO_WORK)) == Move(Processing(d, Unseen), NO_WORK, {})
            && Next(db, Session(c, Processing(d, Unseen), NO_WORK))
               == Move(Processing(d, Fenced), NO_WORK, {Fence(PR.KeyOfDelivery(d))})
            && Next(db, Session(c, Processing(d, Fenced), NO_WORK)) == Move(Processing(d, Rechecked), NO_WORK, {})
            && Next(db, Session(c, Processing(d, Rechecked), NO_WORK))
               == Move(Processing(d, Read(current)), NO_WORK, {})
  {
    ViewOfNothing(db, CmdAccept(ev));
    hide Complete, View, HasRow, CurrentRevision, PR.KeyOfDelivery;
  }

  /** Its last statement appends, under the lock of the stream. */
  lemma AppendMove(db: Database, ev: StartEvidence, r: OutboxRow)
    requires Ripe(db, ev, r)
    ensures var d := Applying(db, r);
            var m := Next(db, Session(CmdAccept(ev), Processing(d, Read(None)), NO_WORK));
            && m.at == Finished(Handled(VerdictApplied)) && m.needs == {StreamFence(r.event.workspace)}
  {
    ViewOfNothing(db, CmdAccept(ev));
    hide Complete, View, HasRow, PR.KeyOfDelivery;
  }

  /** The transaction loads its rows and enters the processor. */
  lemma ToProcessor(w: World, acts: seq<Action>, v: World, i: nat, ev: StartEvidence, r: OutboxRow)
    returns (more: seq<Action>, u: World)
    requires Reaches(w, acts, v) && i in v.sessions && v.sessions[i] == Session(CmdAccept(ev), Begun, NO_WORK)
    requires Ripe(v.db, ev, r)
    requires ExecutionRow(ev.operationID) !in v.locks && BatchRow(ev.batchID) !in v.locks
    ensures Reaches(w, more, u)
    ensures u == v.(locks := Granted(v.locks, {ExecutionRow(ev.operationID), BatchRow(ev.batchID)}, i),
                    sessions := v.sessions[i := Session(CmdAccept(ev), Processing(Applying(v.db, r), Entered),
                                                        NO_WORK)])
  {
    LoadPath(v.db, ev, r);
    var loaded, d := LoadedRows(v.db, ev), Applying(v.db, r);
    hide Next, Reaches, Ripe, Applying, LoadedRows;
    more, u := Moved(w, acts, v, i,
                     Move(loaded, NO_WORK, {ExecutionRow(ev.operationID), BatchRow(ev.batchID)}));
    more, u := Moved(w, more, u, i, Move(Processing(d, Entered), NO_WORK, {}));
  }

  /** The transaction takes the lock of its aggregate. */
  lemma ToFence(w: World, acts: seq<Action>, v: World, i: nat, ev: StartEvidence, r: OutboxRow)
    returns (more: seq<Action>, u: World)
    requires Ripe(v.db, ev, r) && Reaches(w, acts, v) && i in v.sessions
    requires v.sessions[i] == Session(CmdAccept(ev), Processing(Applying(v.db, r), Entered), NO_WORK)
    requires Fence(PR.KeyOfDelivery(Applying(v.db, r))) !in v.locks
    ensures Reaches(w, more, u)
    ensures u == v.(locks := Granted(v.locks, {Fence(PR.KeyOfDelivery(Applying(v.db, r)))}, i),
                    sessions := v.sessions[i := Session(CmdAccept(ev), Processing(Applying(v.db, r), Fenced), NO_WORK)])
  {
    GatePath(v.db, ev, r);
    var d := Applying(v.db, r);
    var fence := Fence(PR.KeyOfDelivery(d));
    hide Next, Reaches, Ripe, Applying, PR.KeyOfDelivery;
    more, u := Moved(w, acts, v, i, Move(Processing(d, Unseen), NO_WORK, {}));
    more, u := Moved(w, more, u, i, Move(Processing(d, Fenced), NO_WORK, {fence}));
  }

  /** The transaction comes from the processor's entry to the statement that appends. */
  lemma ToAppend(w: World, acts: seq<Action>, v: World, i: nat, ev: StartEvidence, r: OutboxRow)
    returns (more: seq<Action>, u: World)
    requires Ripe(v.db, ev, r) && v.db.tables.checkpoints == [] && Reaches(w, acts, v) && i in v.sessions
    requires v.sessions[i] == Session(CmdAccept(ev), Processing(Applying(v.db, r), Entered), NO_WORK)
    requires Fence(PR.KeyOfDelivery(Applying(v.db, r))) !in v.locks
    ensures Reaches(w, more, u)
    ensures u == v.(locks := Granted(v.locks, {Fence(PR.KeyOfDelivery(Applying(v.db, r)))}, i),
                    sessions := v.sessions[i := Session(CmdAccept(ev), Processing(Applying(v.db, r), Read(None)),
                                                        NO_WORK)])
  {
    GatePath(v.db, ev, r);
    var d := Applying(v.db, r);
    more, u := ToFence(w, acts, v, i, ev, r);
    hide Next, Reaches, Ripe, Applying, PR.KeyOfDelivery;
    more, u := Moved(w, more, u, i, Move(Processing(d, Rechecked), NO_WORK, {}));
    more, u := Moved(w, more, u, i, Move(Processing(d, Read(None)), NO_WORK, {}));
  }

  const FIRST := NewStart("o1", "r1", "b1", "e1", "a")
  const SECOND := NewStart("o2", "r2", "b2", "e2", "a")

  function EvidenceFor(workspace: string, n: NewStart): StartEvidence {
    StartEvidence(workspace, n.operationID, n.receiptID, n.batchID, n.actor, "run", "ref")
  }

  function AcceptanceOf(workspace: string, n: NewStart): OutboxRow {
    OutboxRow(Event(n.eventID, workspace, BATCH, n.batchID, 1, 1, None, true), StartAccepted, n.operationID,
              n.receiptID)
  }

  function Both(workspace: string): Database {
    StartBatch(StartBatch(EmptyDatabase(workspace), FIRST, true).db, SECOND, true).db
  }

  lemma DifferentNames()
    ensures FIRST.operationID != SECOND.operationID && FIRST.receiptID != SECOND.receiptID
    ensures FIRST.batchID != SECOND.batchID && FIRST.eventID != SECOND.eventID
  {
    assert FIRST.operationID[1] == '1' && SECOND.operationID[1] == '2';
    assert FIRST.receiptID[1] == '1' && SECOND.receiptID[1] == '2';
    assert FIRST.batchID[1] == '1' && SECOND.batchID[1] == '2';
    assert FIRST.eventID[1] == '1' && SECOND.eventID[1] == '2';
  }

  lemma BothOpened(workspace: string)
    ensures var db := Both(workspace);
            && db.workspace == workspace && db.tables == EMPTY
            && db.outbox == [AcceptanceOf(workspace, FIRST), AcceptanceOf(workspace, SECOND)]
    ensures workspace != ""
            ==> && Ripe(Both(workspace), EvidenceFor(workspace, FIRST), AcceptanceOf(workspace, FIRST))
                && Ripe(Both(workspace), EvidenceFor(workspace, SECOND), AcceptanceOf(workspace, SECOND))
  {
    DifferentNames();
    var one := StartBatch(EmptyDatabase(workspace), FIRST, true).db;
    assert one.outbox == [AcceptanceOf(workspace, FIRST)];
    var rows := Both(workspace).outbox;
    assert rows[1..][0] == rows[1];
  }

  predicate Applies(s: Session, workspace: string, n: NewStart, at: Point) {
    s == Session(CmdAccept(EvidenceFor(workspace, n)), at, NO_WORK)
  }

  /** Two operations are open, and a transaction begins to apply the acceptance of each. */
  lemma TwoBegun(workspace: string) returns (acts: seq<Action>, v: World)
    ensures Reaches(Empty(workspace), acts, v) && v.db == Both(workspace) && v.sessions.Keys == {0, 1}
    ensures Applies(v.sessions[0], workspace, FIRST, Begun) && Applies(v.sessions[1], workspace, SECOND, Begun)
    ensures v.locks == map[]
  {
    hide Reaches, StartBatch;
    acts, v := FourActions(Empty(workspace), Start(FIRST, true), Start(SECOND, true),
                           Open(0, CmdAccept(EvidenceFor(workspace, FIRST))),
                           Open(1, CmdAccept(EvidenceFor(workspace, SECOND))));
  }

  function Delivered(workspace: string, n: NewStart): Delivery {
    Applying(Both(workspace), AcceptanceOf(workspace, n))
  }

  /** Both transactions have loaded their rows. */
  lemma TwoInProcessor(workspace: string) returns (acts: seq<Action>, v: World)
    requires workspace != ""
    ensures Reaches(Empty(workspace), acts, v) && v.db == Both(workspace) && v.sessions.Keys == {0, 1}
    ensures Applies(v.sessions[0], workspace, FIRST, Processing(Delivered(workspace, FIRST), Entered))
    ensures Applies(v.sessions[1], workspace, SECOND, Processing(Delivered(workspace, SECOND), Entered))
    ensures forall k :: k in v.locks ==> k.ExecutionRow? || k.BatchRow?
  {
    hide Reaches, StartBatch, Ripe, AcceptanceOf, Both, Applying;
    var w := Empty(workspace);
    BothOpened(workspace);
    DifferentNames();
    acts, v := TwoBegun(workspace);
    acts, v := ToProcessor(w, acts, v, 0, EvidenceFor(workspace, FIRST), AcceptanceOf(workspace, FIRST));
    acts, v := ToProcessor(w, acts, v, 1, EvidenceFor(workspace, SECOND), AcceptanceOf(workspace, SECOND));
  }

  lemma DifferentFences(workspace: string)
    ensures Fence(PR.KeyOfDelivery(Delivered(workspace, FIRST)))
            != Fence(PR.KeyOfDelivery(Delivered(workspace, SECOND)))
  {
    DifferentNames();
    BothOpened(workspace);
    FencesDiffer(workspace, FIRST.batchID, SECOND.batchID);
  }

  /** Both transactions are about to append. */
  lemma TwoAtAppend(workspace: string) returns (acts: seq<Action>, v: World)
    requires workspace != ""
    ensures Reaches(Empty(workspace), acts, v) && v.db == Both(workspace) && v.sessions.Keys == {0, 1}
    ensures Applies(v.sessions[0], workspace, FIRST, Processing(Delivered(workspace, FIRST), Read(None)))
    ensures Applies(v.sessions[1], workspace, SECOND, Processing(Delivered(workspace, SECOND), Read(None)))
    ensures forall k :: k in v.locks ==> !k.StreamFence?
  {
    hide Reaches, StartBatch, Ripe, AcceptanceOf, Both, Applying, PR.KeyOfDelivery;
    var w := Empty(workspace);
    BothOpened(workspace);
    DifferentFences(workspace);
    acts, v := TwoInProcessor(workspace);
    acts, v := ToAppend(w, acts, v, 0, EvidenceFor(workspace, FIRST), AcceptanceOf(workspace, FIRST));
    acts, v := ToAppend(w, acts, v, 1, EvidenceFor(workspace, SECOND), AcceptanceOf(workspace, SECOND));
  }

  lemma FourActions(w: World, a: Action, b: Action, c: Action, d: Action) returns (acts: seq<Action>, v: World)
    requires Enabled(w, a) && Enabled(Apply(w, a), b) && Enabled(Apply(Apply(w, a), b), c)
    requires Enabled(Apply(Apply(Apply(w, a), b), c), d)
    ensures Reaches(w, acts, v) && v == Apply(Apply(Apply(Apply(w, a), b), c), d)
  {
    hide Enabled, Apply, Reaches;
    NoAction(w);
    LastAction(w, [], w, a);
    LastAction(w, [] + [a], Apply(w, a), b);
    LastAction(w, [] + [a] + [b], Apply(Apply(w, a), b), c);
    LastAction(w, [] + [a] + [b] + [c], Apply(Apply(Apply(w, a), b), c), d);
    acts, v := [] + [a] + [b] + [c] + [d], Apply(Apply(Apply(Apply(w, a), b), c), d);
  }

  /** The first of two acceptances has appended and not committed; the second one, about another
      operation, has all its rows and cannot go on. */
  lemma LoadedCanWait(workspace: string) returns (acts: seq<Action>, v: World)
    requires workspace != ""
    ensures Reaches(Empty(workspace), acts, v) && v.sessions.Keys == {0, 1} && OwnEvents(v)
    ensures v.sessions[0].at.Finished? && PastLoad(v.sessions[1]) && Busy(v.sessions[1]) && !v.sessions[0].c.CmdStart?
    ensures v.sessions[0].c.ev.operationID != v.sessions[1].c.ev.operationID
            && v.sessions[0].c.ev.batchID != v.sessions[1].c.ev.batchID
    ensures !Enabled(v, Run(1))
  {
    hide Reaches, Ripe, Next, StartBatch, AcceptanceOf, Both;
    BothOpened(workspace);
    DifferentNames();
    acts, v := TwoAtAppend(workspace);
    AppendMove(v.db, EvidenceFor(workspace, FIRST), AcceptanceOf(workspace, FIRST));
    AppendMove(v.db, EvidenceFor(workspace, SECOND), AcceptanceOf(workspace, SECOND));
    SameWorkspaceTwice(workspace);
    acts, v := Moved(Empty(workspace), acts, v, 0, Next(v.db, v.sessions[0]));
  }

  lemma SameWorkspaceTwice(workspace: string)
    ensures AcceptanceOf(workspace, FIRST).event.workspace == workspace
            && AcceptanceOf(workspace, SECOND).event.workspace == workspace
  {
  }
}
