/** The transactions of the start commands do not block each other for good. Every statement brings its
    transaction nearer to its end. A transaction that has locked its rows waits for the lock of the
    workspace's operation stream and for nothing else, and who holds that lock waits for nobody, so
    whoever waits has somebody to wait for that can run. */
module StartProgress {
  import opened CheckpointModel
  import opened EventProjection
  import opened StartCommand
  import opened StartRaces
  import opened StartSerial
  import PR = ProjectionRaces

  // ----- every statement counts -----

  function GateRank(gate: Gate): nat {
    match gate
    case Entered => 4
    case Unseen => 3
    case Fenced => 2
    case Rechecked => 1
    case Read(_) => 0
  }

  /** How many statements a session may still run. */
  function Rank(s: Session): int {
    match s.at
    case Begun => 20
    case Loaded(_, _) => 19
    case Cleared => 18
    case Activated => 17
    case ToPublish => 16 - 6 * |s.work.outbox|
    case Processing(_, gate) => (if s.work.outbox == [] then 11 else 17 - 6 * |s.work.outbox|) + GateRank(gate)
    case _ => 0
  }

  /** Every statement brings its transaction nearer to its end. */
  lemma NextAdvances(db: Database, owned: set<Lock>, s: Session)
    requires SessionInv(db, owned, s) && Busy(s)
    ensures Advanced(s, Next(db, s))
  {
    hide HoldsRows, Ready, CurrentRevision, HasRow, QueuedInOrder, FencesHeld, AcceptedApplied, EventIDTaken, Decide,
        PR.KeyOfDelivery, Advanced, Next;
    match s.at
    case Processing(_, _) =>
      InsideIsSession(db, owned, s);
      hide SessionInv;
      InsideAdvances(db, owned, s);
    case ToPublish => EnqueueAdvances(db, owned, s);
    case _ =>
      hide SessionInv;
      OutsideAdvances(db, s);
  }

  predicate Advanced(s: Session, m: Move) {
    m.at.Finished? || m.at.Ended? || 0 <= Rank(Session(s.c, m.at, m.work)) < Rank(s)
  }

  /** Inside the processor a statement goes to the next gate or out of it. */
  lemma GatesAdvance(v: Database, s: Session, d: Delivery, gate: Gate)
    requires !s.c.CmdStart?
    ensures var m := ProcessNext(v, s, d, gate);
            || m.at.Finished? || m.at.Ended?
            || (m.at.Processing? && m.work == s.work && GateRank(m.at.gate) < GateRank(gate))
            || (m.at.ToPublish? && !s.c.CmdAccept? && m.work.outbox == s.work.outbox)
  {
    hide HasRow, CurrentRevision, PR.KeyOfDelivery;
  }

  lemma InsideAdvances(db: Database, owned: set<Lock>, s: Session)
    requires Inside(db, owned, s)
    ensures Advanced(s, Next(db, s))
  {
    hide HoldsRows, Ready, QueuedInOrder, FencesHeld, GateInv, PR.KeyOfDelivery, View, ProcessNext, Accepting, WorkOf;
    GatesAdvance(View(db, s.c, s.work), s, s.at.d, s.at.gate);
    if !s.c.CmdAccept? {
      var n := |s.work.outbox|;
      assert n <= |Events(db, s.c)| <= 2;
    }
  }

  lemma EnqueueAdvances(db: Database, owned: set<Lock>, s: Session)
    requires !s.c.CmdStart? && s.at.ToPublish? && Publishing(db, owned, s, |s.work.outbox|, |s.work.outbox|)
    ensures Advanced(s, Next(db, s))
  {
    hide HoldsRows, Ready, QueuedInOrder, FencesHeld, EventIDTaken;
  }

  lemma OutsideAdvances(db: Database, s: Session)
    requires !s.c.CmdStart? && s.work.outbox == []
    requires s.at.Begun? || s.at.Loaded? || s.at.Cleared? || s.at.Activated?
    ensures Advanced(s, Next(db, s))
  {
    hide AcceptedApplied;
  }

  /** A transaction that finds no locks of others comes to its end. */
  lemma {:induction false} AloneEnds(w: World, workspace: string, i: nat) returns (acts: seq<Action>, v: World)
    requires Inv(w, workspace) && i in w.sessions && forall k | k in w.locks :: w.locks[k] == i
    ensures Reaches(w, acts, v) && i in v.sessions && !Busy(v.sessions[i])
    decreases Rank(w.sessions[i])
  {
    hide SessionInv, Next, Rank, Reaches;
    var s := w.sessions[i];
    if Busy(s) {
      NextAdvances(w.db, OwnedBy(w, i), s);
      NoStartSession(w.db, OwnedBy(w, i), s);
      RunKeepsInv(w, workspace, i);
      var next := Apply(w, Run(i));
      var rest: seq<Action>;
      if Busy(next.sessions[i]) {
        rest, v := AloneEnds(next, workspace, i);
      } else {
        rest, v := [], next;
        NoAction(next);
      }
      FirstAction(w, Run(i), rest, v);
      acts := [Run(i)] + rest;
    } else {
      acts, v := [], w;
      NoAction(w);
    }
  }

  lemma FirstAction(w: World, a: Action, rest: seq<Action>, v: World)
    requires Enabled(w, a) && Reaches(Apply(w, a), rest, v)
    ensures Reaches(w, [a] + rest, v)
  {
    assert ([a] + rest)[1..] == rest;
  }

  lemma NoAction(w: World)
    ensures Reaches(w, [], w)
  {
  }

  // ----- who holds a lock -----

  function EventIDs(c: Command): set<string> {
    match c
    case CmdClaim(_, _, eventID, _) => {eventID}
    case CmdConfirm(_, _, batchEventID, eventID, _) => {batchEventID, eventID}
    case _ => {}
  }

  /** The transactions under way create different events; the source draws every identifier anew. */
  predicate OwnEvents(w: World) {
    forall i, j :: i in w.sessions && j in w.sessions && i != j
      && !w.sessions[i].at.Ended? && !w.sessions[j].at.Ended?
      ==> EventIDs(w.sessions[i].c) !! EventIDs(w.sessions[j].c)
  }

  function FenceOf(workspace: string, aggregateType: string, aggregateID: string): Lock {
    Fence(Consumer(workspace, aggregateType) + ":" + workspace + ":" + aggregateType + ":" + aggregateID)
  }

  /** The locks that a command asks for. */
  predicate MayHold(workspace: string, c: Command, k: Lock)
    requires !c.CmdStart?
  {
    match k
    case ExecutionRow(operationID) => operationID == c.ev.operationID
    case BatchRow(batchID) => batchID == c.ev.batchID
    case OutboxKey(eventID) => eventID in EventIDs(c)
    case Fence(_) =>
      k == FenceOf(workspace, OPERATION, c.ev.operationID) || k == FenceOf(workspace, BATCH, c.ev.batchID)
    case StreamFence(name) => name == workspace
  }

  predicate PastLoad(s: Session) {
    !s.c.CmdStart? && !s.at.Begun? && !s.at.Ended?
  }

  /** Every lock belongs to a transaction under way that has its rows. */
  predicate LockInv(w: World) {
    forall k :: k in w.locks ==>
      var i := w.locks[k];
      i in w.sessions && PastLoad(w.sessions[i]) && MayHold(w.db.workspace, w.sessions[i].c, k)
  }

  lemma PastLoadHoldsRows(db: Database, owned: set<Lock>, s: Session)
    requires SessionInv(db, owned, s) && PastLoad(s)
    ensures HoldsRows(db, owned, s.c.ev)
  {
    hide HoldsRows, Ready, QueuedInOrder, FencesHeld, GateInv, CurrentRevision, HasRow, Decide;
  }

  /** A publication's lock is that of the operation or of the batch. */
  lemma PublicationFence(db: Database, c: Command, k: nat)
    requires !c.CmdStart? && k < |Events(db, c)|
    ensures MayHold(db.workspace, c, Fence(PR.KeyOfDelivery(DeliveryOf(Events(db, c)[k]))))
    ensures Events(db, c)[k].event.id in EventIDs(c) && Events(db, c)[k].event.workspace == db.workspace
  {
  }

  lemma AcceptanceOfBatch(db: Database, r: OutboxRow)
    requires OutboxInv(db) && r in db.outbox && r.name.StartAccepted?
    ensures r.event.workspace == db.workspace && r.event.aggregateType == BATCH
  {
    assert OutboxRowInv(db, r);
  }

  lemma AcceptanceFence(db: Database, owned: set<Lock>, s: Session, d: Delivery)
    requires Agreement(db) && Accepting(db, owned, s, d)
    ensures MayHold(db.workspace, s.c, Fence(PR.KeyOfDelivery(d))) && d.event.workspace == db.workspace
  {
    hide HoldsRows, Consumer, Agreement;
    AgreedRows(db);
    AcceptanceOfBatch(db, FindAcceptance(db.outbox, s.c.ev.operationID, s.c.ev.receiptID, s.c.ev.batchID).value);
    hide OutboxInv, RowsInv;
  }

  /** Inside the processor a statement asks for the lock of its aggregate or for that of the stream. */
  lemma GateNeeds(v: Database, s: Session, d: Delivery, gate: Gate)
    requires !s.c.CmdStart?
    ensures forall k :: k in ProcessNext(v, s, d, gate).needs
              ==> k == Fence(PR.KeyOfDelivery(d)) || k == StreamFence(d.event.workspace)
  {
    hide HasRow, Decide, CurrentRevision, PR.KeyOfDelivery;
  }

  lemma InsideNeeds(db: Database, owned: set<Lock>, s: Session)
    requires Agreement(db) && Inside(db, owned, s)
    ensures forall k :: k in Next(db, s).needs ==> MayHold(db.workspace, s.c, k)
  {
    hide Agreement, GateInv, Accepting, HoldsRows, Ready, QueuedInOrder, FencesHeld, WorkOf, Events, View, FenceOf,
        ProcessNext, PR.KeyOfDelivery;
    GateNeeds(View(db, s.c, s.work), s, s.at.d, s.at.gate);
    if s.c.CmdAccept? {
      AcceptanceFence(db, owned, s, s.at.d);
    } else {
      PublicationFence(db, s.c, |s.work.outbox| - 1);
    }
  }

  lemma EnqueueNeeds(db: Database, s: Session)
    requires !s.c.CmdStart? && s.at.ToPublish?
    ensures forall k :: k in Next(db, s).needs ==> MayHold(db.workspace, s.c, k)
  {
    hide EventIDTaken, Events;
    var v := View(db, s.c, s.work);
    if |s.work.outbox| < |Events(v, s.c)| {
      PublicationFence(v, s.c, |s.work.outbox|);
    }
  }

  lemma OutsideNeeds(db: Database, s: Session)
    requires !s.c.CmdStart? && (s.at.Loaded? || s.at.Cleared? || s.at.Activated?)
    ensures forall k :: k in Next(db, s).needs ==> MayHold(db.workspace, s.c, k)
  {
    hide AcceptedApplied, View, ActivateBatch, ClaimRow, ConfirmRow;
  }

  lemma LoadNeeds(db: Database, s: Session)
    requires !s.c.CmdStart? && s.at.Begun? && !Next(db, s).at.Ended?
    ensures forall k :: k in Next(db, s).needs ==> MayHold(db.workspace, s.c, k)
  {
    hide AfterLoad;
  }

  /** A transaction asks only for its own locks, but for the batch row of a load that is refused. */
  lemma NeedsAreOwn(db: Database, owned: set<Lock>, s: Session)
    requires Agreement(db) && SessionInv(db, owned, s) && Busy(s)
    requires PastLoad(s) || !Next(db, s).at.Ended?
    ensures forall k :: k in Next(db, s).needs ==> MayHold(db.workspace, s.c, k)
  {
    hide Agreement, Next, MayHold, Inside, SessionInv;
    NoStartSession(db, owned, s);
    InsideIsSession(db, owned, s);
    match s.at
    case Begun => LoadNeeds(db, s);
    case ToPublish => EnqueueNeeds(db, s);
    case Processing(_, _) => InsideNeeds(db, owned, s);
    case _ => OutsideNeeds(db, s);
  }

  lemma NextIsPastLoad(db: Database, s: Session)
    requires !s.c.CmdStart? && Busy(s)
    ensures !Next(db, s).at.Begun?
  {
    hide HasRow, Decide, AcceptedApplied, EventIDTaken, CurrentRevision, View;
  }

  lemma ActionKeepsLocks(w: World, workspace: string, a: Action)
    requires Inv(w, workspace) && LockInv(w) && Enabled(w, a)
    ensures LockInv(Apply(w, a))
  {
    hide MayHold, SessionInv, ExecuteAll, Next, StartBatch, View;
    match a
    case Run(i) =>
      DoneAgrees(w, workspace);
      hide Agreement;
      var s := w.sessions[i];
      NextIsPastLoad(w.db, s);
      if !Next(w.db, s).at.Ended? {
        NeedsAreOwn(w.db, OwnedBy(w, i), s);
      }
    case Commit(i) => SameWorkspace(w.db, w.sessions[i].c, w.sessions[i].work);
    case Start(new', safe) => StartKeepsWorkspace(w.db, new', safe);
    case _ =>
  }

  lemma SameWorkspace(db: Database, c: Command, work: Work)
    requires !c.CmdStart?
    ensures View(db, c, work).workspace == db.workspace
  {
  }

  lemma StartKeepsWorkspace(db: Database, new': NewStart, safe: bool)
    ensures StartBatch(db, new', safe).db.workspace == db.workspace
  {
  }

  ghost predicate InOrder(w: World, workspace: string) {
    Inv(w, workspace) && LockInv(w)
  }

  lemma {:induction false} RunsStayInOrder(w: World, workspace: string, acts: seq<Action>, v: World)
    requires InOrder(w, workspace) && Reaches(w, acts, v)
    ensures InOrder(v, workspace)
    decreases |acts|
  {
    hide Inv, LockInv, Apply, Enabled;
    if acts != [] {
      ActionKeepsInv(w, workspace, acts[0]);
      ActionKeepsLocks(w, workspace, acts[0]);
      RunsStayInOrder(Apply(w, acts[0]), workspace, acts[1..], v);
    }
  }

  lemma EmptyInOrder(workspace: string)
    ensures InOrder(Empty(workspace), workspace)
  {
    hide ExecuteAll;
    NothingDone(workspace);
  }

  // ----- nobody waits for good -----

  /** The texts of an operation's and a batch's lock part at the first letter of the type. */
  lemma FencesDiffer(workspace: string, a: string, b: string)
    ensures FenceOf(workspace, OPERATION, a) == FenceOf(workspace, OPERATION, b) ==> a == b
    ensures FenceOf(workspace, BATCH, a) == FenceOf(workspace, BATCH, b) ==> a == b
    ensures FenceOf(workspace, OPERATION, a) != FenceOf(workspace, BATCH, b)
  {
    SameTail(Consumer(workspace, OPERATION) + ":" + workspace + ":" + OPERATION + ":", a, b);
    SameTail(Consumer(workspace, BATCH) + ":" + workspace + ":" + BATCH + ":", a, b);
    var p := "p8-admin-execution:" + workspace + ":";
    assert FenceOf(workspace, OPERATION, a).key[|p|] == OPERATION[0] == 'o';
    assert FenceOf(workspace, BATCH, b).key[|p|] == BATCH[0] == 'p';
  }

  lemma SameTail(p: string, a: string, b: string)
    ensures p + a == p + b ==> a == b
  {
    assert (p + a)[|p|..] == a && (p + b)[|p|..] == b;
  }

  /** Two transactions that may hold one lock, the stream's apart, are about one operation, one batch or
      one event. */
  lemma SharedLock(workspace: string, c: Command, d: Command, k: Lock)
    requires !c.CmdStart? && !d.CmdStart? && MayHold(workspace, c, k) && MayHold(workspace, d, k) && !k.StreamFence?
    ensures c.ev.operationID == d.ev.operationID || c.ev.batchID == d.ev.batchID || !(EventIDs(c) !! EventIDs(d))
  {
    hide FenceOf;
    FencesDiffer(workspace, c.ev.operationID, d.ev.operationID);
    FencesDiffer(workspace, c.ev.batchID, d.ev.batchID);
    FencesDiffer(workspace, c.ev.operationID, d.ev.batchID);
    FencesDiffer(workspace, d.ev.operationID, c.ev.batchID);
  }

  /** A lock that a transaction with its rows may hold is not another's, the stream's apart. */
  lemma OwnLock(w: World, workspace: string, i: nat, k: Lock)
    requires InOrder(w, workspace) && OwnEvents(w) && i in w.sessions && PastLoad(w.sessions[i])
    requires k in w.locks && MayHold(w.db.workspace, w.sessions[i].c, k) && !k.StreamFence?
    ensures w.locks[k] == i
  {
    hide SessionInv, ExecuteAll, MayHold, EventIDs;
    var j := w.locks[k];
    var s, t := w.sessions[i], w.sessions[j];
    PastLoadHoldsRows(w.db, OwnedBy(w, i), s);
    PastLoadHoldsRows(w.db, OwnedBy(w, j), t);
    SharedLock(w.db.workspace, s.c, t.c, k);
    hide Complete, Loads, Bound;
  }

  /** The lock of the workspace's stream is free or the transaction's own. */
  predicate StreamFree(w: World, i: nat) {
    var k := StreamFence(w.db.workspace);
    k in w.locks ==> w.locks[k] == i
  }

  /** The next statement of the transaction appends to the stream. */
  predicate Appends(w: World, i: nat)
    requires i in w.sessions && !w.sessions[i].c.CmdStart?
  {
    StreamFence(w.db.workspace) in Next(w.db, w.sessions[i]).needs
  }

  /** A transaction that has its rows waits exactly when it is about to append while another one has
      appended and not ended. */
  lemma LoadedWaitsExactly(w: World, workspace: string, i: nat)
    requires InOrder(w, workspace) && OwnEvents(w) && i in w.sessions && PastLoad(w.sessions[i]) && Busy(w.sessions[i])
    ensures Enabled(w, Run(i)) <==> (Appends(w, i) ==> StreamFree(w, i))
  {
    hide SessionInv, ExecuteAll, Next, OwnEvents;
    DoneAgrees(w, workspace);
    hide Agreement;
    NeedsAreOwn(w.db, OwnedBy(w, i), w.sessions[i]);
    hide InOrder, FenceOf;
    if Appends(w, i) ==> StreamFree(w, i) {
      forall k | k in Next(w.db, w.sessions[i]).needs && k in w.locks
        ensures w.locks[k] == i
      {
        if !k.StreamFence? {
          OwnLock(w, workspace, i, k);
        }
      }
    }
  }

  /** The holder of the stream's lock, if there is one, waits for nobody. */
  lemma HolderRuns(w: World, workspace: string)
    requires InOrder(w, workspace) && OwnEvents(w) && StreamFence(w.db.workspace) in w.locks
    ensures var j := w.locks[StreamFence(w.db.workspace)]; Enabled(w, Run(j)) || Enabled(w, Commit(j))
  {
    hide Inv, OwnEvents, Next, MayHold;
    var j := w.locks[StreamFence(w.db.workspace)];
    if Busy(w.sessions[j]) {
      LoadedWaitsExactly(w, workspace, j);
    }
  }

  /** As long as some transaction has not ended, one can run or commit. */
  lemma NoDeadlock(w: World, workspace: string, i: nat)
    requires InOrder(w, workspace) && OwnEvents(w) && i in w.sessions && !w.sessions[i].at.Ended?
    ensures exists j :: Enabled(w, Run(j)) || Enabled(w, Commit(j))
  {
    hide SessionInv, ExecuteAll, Next;
    forall j | j in w.sessions
      ensures !w.sessions[j].c.CmdStart?
    {
      NoStartSession(w.db, OwnedBy(w, j), w.sessions[j]);
    }
    if StreamFence(w.db.workspace) in w.locks {
      HolderRuns(w, workspace);
    } else if j :| j in w.sessions && PastLoad(w.sessions[j]) {
      if Busy(w.sessions[j]) {
        LoadedWaitsExactly(w, workspace, j);
      } else {
        assert Enabled(w, Commit(j));
      }
    } else {
      assert w.sessions[i].at.Begun?;
      assert Enabled(w, Run(i));
    }
  }

  // ----- everybody comes to an end -----

  /** How many runs and commits a transaction can still make. */
  function Weight(s: Session): nat {
    if s.at.Ended? then 0 else if s.at.Finished? then 1 else if Rank(s) < 0 then 2 else 2 + Rank(s)
  }

  function Total(sessions: map<nat, Session>, n: nat): nat {
    if n == 0 then 0 else Total(sessions, n - 1) + if n - 1 in sessions then Weight(sessions[n - 1]) else 0
  }

  predicate Moves(acts: seq<Action>) {
    forall a :: a in acts ==> a.Run? || a.Commit?
  }

  lemma {:induction false} TotalDrops(before: map<nat, Session>, after: map<nat, Session>, i: nat, n: nat)
    requires i in before && i in after && Weight(after[i]) < Weight(before[i])
    requires forall j :: j != i ==> (j in before <==> j in after) && (j in before ==> before[j] == after[j])
    ensures Total(after, n) <= Total(before, n)
    ensures i < n ==> Total(after, n) < Total(before, n)
  {
    hide Weight;
    if n > 0 {
      TotalDrops(before, after, i, n - 1);
    }
  }

  lemma WeightBounded(s: Session)
    ensures Weight(s) <= 22
  {
  }

  lemma {:induction false} TotalBounded(sessions: map<nat, Session>, n: nat, indexes: set<nat>)
    requires forall i :: i in sessions && i < n ==> i in indexes
    ensures Total(sessions, n) <= 22 * |indexes|
  {
    if n > 0 {
      TotalBounded(sessions, n - 1, indexes - {n - 1});
      if n - 1 in sessions {
        WeightBounded(sessions[n - 1]);
      }
    }
  }

  lemma {:induction false} IndexBound(indexes: set<nat>) returns (n: nat)
    ensures forall i :: i in indexes ==> i < n
  {
    if indexes == {} {
      n := 0;
    } else {
      var i :| i in indexes;
      var m := IndexBound(indexes - {i});
      n := m + i + 1;
      assert forall j :: j in indexes ==> j == i || j in indexes - {i};
    }
  }

  lemma MoveDrops(w: World, workspace: string, a: Action, n: nat)
    requires InOrder(w, workspace) && Enabled(w, a) && (a.Run? || a.Commit?)
    requires forall i :: i in w.sessions ==> i < n
    ensures Total(Apply(w, a).sessions, n) < Total(w.sessions, n)
    ensures Apply(w, a).sessions.Keys == w.sessions.Keys
    ensures OwnEvents(w) ==> OwnEvents(Apply(w, a))
  {
    hide SessionInv, ExecuteAll, Next, Rank, View, LockInv, Total;
    var s := w.sessions[a.i];
    if a.Run? {
      NextAdvances(w.db, OwnedBy(w, a.i), s);
    }
    TotalDrops(w.sessions, Apply(w, a).sessions, a.i, n);
  }

  lemma {:induction false} MovesEnd(w: World, workspace: string, acts: seq<Action>, v: World, n: nat)
    requires InOrder(w, workspace) && OwnEvents(w) && Moves(acts) && Reaches(w, acts, v)
    requires forall i :: i in w.sessions ==> i < n
    ensures |acts| + Total(v.sessions, n) <= Total(w.sessions, n)
    ensures InOrder(v, workspace) && OwnEvents(v)
    decreases |acts|
  {
    hide InOrder, OwnEvents, Apply, Enabled, Total;
    if acts != [] {
      assert acts[0] in acts;
      MoveDrops(w, workspace, acts[0], n);
      RunsStayInOrder(w, workspace, [acts[0]], Apply(w, acts[0])) by {
        NoAction(Apply(w, acts[0]));
        FirstAction(w, acts[0], [], Apply(w, acts[0]));
        assert [acts[0]] + [] == [acts[0]];
      }
      MovesEnd(Apply(w, acts[0]), workspace, acts[1..], v, n);
    }
  }

  lemma NothingLeft(v: World)
    requires forall i :: i in v.sessions ==> v.sessions[i].at.Ended?
    ensures forall j :: !Enabled(v, Run(j)) && !Enabled(v, Commit(j))
  {
    hide Next;
  }

  /** From every reachable world, transactions of different events come to their ends however they
      interleave: no run of statements and commits is longer than 22 for each of them, and it stops
      only when all have ended. */
  lemma EveryTransactionEnds(workspace: string, before: seq<Action>, w: World, acts: seq<Action>, v: World)
    requires Reaches(Empty(workspace), before, w) && OwnEvents(w)
    requires Moves(acts) && Reaches(w, acts, v)
    ensures |acts| <= 22 * |w.sessions|
    ensures (exists j :: Enabled(v, Run(j)) || Enabled(v, Commit(j)))
            <==> exists i :: i in v.sessions && !v.sessions[i].at.Ended?
  {
    hide InOrder, OwnEvents, Reaches, Total, Next;
    EmptyInOrder(workspace);
    RunsStayInOrder(Empty(workspace), workspace, before, w);
    var n := IndexBound(w.sessions.Keys);
    MovesEnd(w, workspace, acts, v, n);
    TotalBounded(w.sessions, n, w.sessions.Keys);
    if i :| i in v.sessions && !v.sessions[i].at.Ended? {
      NoDeadlock(v, workspace, i);
    } else {
      NothingLeft(v);
    }
  }
}
