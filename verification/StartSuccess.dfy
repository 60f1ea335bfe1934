/** When the commands of a start take effect, and that a start can be brought to its end. */
module StartSuccess {
  import opened CheckpointModel
  import opened EventProjection
  import opened StartCommand
  import G = StateGraph

  /** The evidence is complete, names existing rows, and fits them. */
  predicate Evident(db: Database, ev: StartEvidence) {
    Complete(ev) && Loads(db, ev) && Bound(db, ev)
  }

  /** Everything a claim needs. */
  predicate Claimable(db: Database, ev: StartEvidence, expected: int, eventID: string, safe: bool) {
    && Evident(db, ev) && AtStage(db, ev.operationID, AcceptedStage)
    && expected == 0 && !EventIDTaken(db, eventID) && safe
  }

  /** A claim changes the database exactly when nothing is missing. */
  lemma ClaimSucceedsExactly(db: Database, ev: StartEvidence, expected: int, eventID: string, safe: bool)
    requires Agreement(db)
    ensures var out := ClaimStart(db, ev, expected, eventID, safe);
            && (out.db != db <==> Claimable(db, ev, expected, eventID, safe))
            && (out.db != db ==> out.reply == Done(G.Started, 1) && Moves(db, out.db, ev, AcceptedStage, StartedStage))
  {
    hide OperationInv, AppliedEvent, OutboxInv, RowsInv, NoneConfirming, Process, CurrentRevision;
    if Evident(db, ev) && db.executions[ev.operationID].status.Prepared? {
      OperationFacts(db, ev.operationID);
      StageOfClaim(db, ev);
      if Claimable(db, ev, expected, eventID, safe) {
        ClaimWorks(db, ev, eventID);
      }
    }
  }

  /** Everything a confirmation needs. */
  predicate ConfirmableNow(db: Database, ev: StartEvidence, expected: int, batchEventID: string, eventID: string,
                           safe: bool) {
    && Complete(ev) && Confirmable(db, ev) && expected == 1
    && !EventIDTaken(db, batchEventID) && !EventIDTaken(db, eventID) && batchEventID != eventID && safe
  }

  /** A confirmation changes the database exactly when nothing is missing. */
  lemma ConfirmSucceedsExactly(db: Database, ev: StartEvidence, expected: int, batchEventID: string, eventID: string,
                               safe: bool)
    requires Agreement(db)
    ensures var out := ConfirmRunning(db, ev, expected, batchEventID, eventID, safe);
            && (out.db != db <==> ConfirmableNow(db, ev, expected, batchEventID, eventID, safe))
            && (out.db != db ==>
                  out.reply == Done(G.Succeeded, 2) && Moves(db, out.db, ev, StartedStage, SucceededStage))
  {
    hide OperationInv, AppliedEvent, OutboxInv, RowsInv, NoneConfirming, Process, CurrentRevision, Publish,
        EventIDTaken;
    if Evident(db, ev) && db.executions[ev.operationID].status.Started? {
      OperationFacts(db, ev.operationID);
      StageOfConfirm(db, ev);
      if expected == 1 && Confirmable(db, ev) {
        if ConfirmableNow(db, ev, expected, batchEventID, eventID, safe) {
          ConfirmWorks(db, ev, batchEventID, eventID);
        } else {
          ConfirmRefused(db, ev, batchEventID, eventID, safe);
        }
      }
    }
  }

  /** Applying the acceptance changes the database exactly for a complete and fitting evidence of an
      operation whose acceptance has not been applied. */
  lemma AcceptanceSucceedsExactly(db: Database, ev: StartEvidence)
    requires Agreement(db)
    ensures var out := ApplyAcceptance(db, ev);
            && (out.db != db <==> Evident(db, ev) && AtStage(db, ev.operationID, Opened))
            && (out.db != db ==> out.reply == Handled(VerdictApplied) && Moves(db, out.db, ev, Opened, AcceptedStage))
  {
    hide OperationInv, AppliedEvent, RowsInv, NoneConfirming, CurrentRevision, OutboxInv;
    ApplyKeepsAgreement(db, ev);
    if Evident(db, ev) {
      OperationFacts(db, ev.operationID);
      AcceptanceIsFound(db, ev);
      if AtStage(db, ev.operationID, Opened) {
        OneStage(db, ev.operationID, Opened, AcceptedStage);
      }
    }
  }

  lemma AcceptanceExists(db: Database, ev: StartEvidence)
    requires Evident(db, ev) && OperationInv(db, ev.operationID)
    ensures FindAcceptance(db.outbox, ev.operationID, ev.receiptID, ev.batchID).Some?
  {
    hide AppliedEvent, CurrentRevision, AtStage;
    var e := db.executions[ev.operationID];
    var r :| r in db.outbox && IsAcceptance(r, ev.operationID, e.receiptID, e.batchID);
  }

  lemma SafeIsHandled(db: Database, ev: StartEvidence, r: OutboxRow)
    requires Evident(db, ev) && r.event.safe
    requires FindAcceptance(db.outbox, ev.operationID, ev.receiptID, ev.batchID) == Some(r)
    ensures ApplyAcceptance(db, ev).reply.Handled?
  {
    hide Process, FindAcceptance, Complete, Loads, Bound;
    SafeIsNotRaised(db.tables, Delivery(r.event, BatchConsumer(db), None));
  }

  /** The acceptance of a known operation is in the outbox, and the processor does not raise on it. */
  lemma AcceptanceIsFound(db: Database, ev: StartEvidence)
    requires Agreement(db) && Evident(db, ev)
    ensures ApplyAcceptance(db, ev).reply.Handled?
  {
    hide OperationInv, RowsInv, NoneConfirming, OutboxInv, ApplyAcceptance, FindAcceptance, Complete, Bound;
    OperationFacts(db, ev.operationID);
    AcceptanceExists(db, ev);
    var found := FindAcceptance(db.outbox, ev.operationID, ev.receiptID, ev.batchID);
    OutboxIsSafe(db, found.value);
    SafeIsHandled(db, ev, found.value);
  }

  lemma OutboxIsSafe(db: Database, r: OutboxRow)
    requires OutboxInv(db) && r in db.outbox
    ensures r.event.safe
  {
    assert OutboxRowInv(db, r);
  }

  lemma SafeIsNotRaised(t: Tables, d: Delivery)
    requires d.event.safe
    ensures !Process(t, d).verdict.Raised?
  {
  }

  // ----- a start from its beginning to its end -----

  /** The database after the first `n` commands of a start. */
  function AfterCommands(workspace: string, cs: seq<Command>, n: nat): Database
    requires n <= |cs|
  {
    ExecuteAll(EmptyDatabase(workspace), cs[..n])
  }

  lemma NextCommand(workspace: string, cs: seq<Command>, n: nat)
    requires n < |cs|
    ensures AfterCommands(workspace, cs, n + 1) == Execute(AfterCommands(workspace, cs, n), cs[n]).db
    ensures Agreement(AfterCommands(workspace, cs, n))
  {
    hide Agreement, Execute;
    assert cs[..n + 1][..n] == cs[..n];
    StartCommandAgreement(workspace, cs[..n], cs[n]);
  }

  /** The names of a start, all there and with three event identifiers besides the acceptance's. */
  datatype Plan = Plan(workspace: string, start: NewStart, runID: string, claimRef: string, activationRef: string,
                       claimID: string, batchID: string, successID: string)
  {
    predicate Valid() {
      && workspace != "" && start.operationID != "" && start.receiptID != "" && start.batchID != ""
      && start.actor != "" && runID != "" && claimRef != "" && activationRef != ""
      && start.eventID != claimID && start.eventID != batchID && start.eventID != successID
      && claimID != batchID && claimID != successID && batchID != successID
    }

    function Evidence(reference: string): StartEvidence {
      StartEvidence(workspace, start.operationID, start.receiptID, start.batchID, start.actor, runID, reference)
    }

    function Commands(): seq<Command> {
      [CmdStart(start, true), CmdAccept(Evidence(claimRef)), CmdClaim(Evidence(claimRef), 0, claimID, true),
       CmdConfirm(Evidence(activationRef), 1, batchID, successID, true)]
    }
  }

  /** What a plan's commands have in common once the operation is open. */
  predicate Underway(p: Plan, db: Database, stage: Stage, ids: set<string>) {
    && Evident(db, p.Evidence(p.claimRef)) && Evident(db, p.Evidence(p.activationRef))
    && AtStage(db, p.start.operationID, stage)
    && forall r :: r in db.outbox ==> r.event.id in ids
  }

  /** A database that still has the names is still fitted by the evidence. */
  lemma StillUnderway(p: Plan, db: Database, next: Database, stage: Stage, ids: set<string>)
    requires Evident(db, p.Evidence(p.claimRef)) && Evident(db, p.Evidence(p.activationRef))
    requires next.workspace == db.workspace && next.receipts == db.receipts
    requires p.start.operationID in next.executions && p.start.batchID in next.batches
    requires var e, f := db.executions[p.start.operationID], next.executions[p.start.operationID];
             f.receiptID == e.receiptID && f.batchID == e.batchID && f.actor == e.actor
    requires AtStage(next, p.start.operationID, stage) && forall r :: r in next.outbox ==> r.event.id in ids
    ensures Underway(p, next, stage, ids)
  {
    hide AtStage;
  }

  lemma OpenedByPlan(p: Plan)
    requires p.Valid()
    ensures Underway(p, StartBatch(EmptyDatabase(p.workspace), p.start, true).db, Opened, {p.start.eventID})
  {
    var db := EmptyDatabase(p.workspace);
    EmptyAgreement(p.workspace);
    hide AtStage, Agreement;
    OpenKeepsAgreement(db, p.start, true);
    assert StartBatch(db, p.start, true).reply.Done?;
    EvidenceOfNewStart(p);
  }

  lemma EvidenceOfNewStart(p: Plan)
    requires p.Valid()
    ensures var next := StartBatch(EmptyDatabase(p.workspace), p.start, true).db;
            && Evident(next, p.Evidence(p.claimRef)) && Evident(next, p.Evidence(p.activationRef))
            && forall r :: r in next.outbox ==> r.event.id == p.start.eventID
  {
  }

  lemma AcceptedByPlan(p: Plan, db: Database)
    requires p.Valid() && Agreement(db) && Underway(p, db, Opened, {p.start.eventID})
    ensures Underway(p, ApplyAcceptance(db, p.Evidence(p.claimRef)).db, AcceptedStage, {p.start.eventID})
  {
    hide AtStage, Agreement;
    AcceptanceSucceedsExactly(db, p.Evidence(p.claimRef));
    var next := ApplyAcceptance(db, p.Evidence(p.claimRef)).db;
    AcceptanceEffect(db, p.Evidence(p.claimRef));
    hide ApplyAcceptance;
    StillUnderway(p, db, next, AcceptedStage, {p.start.eventID});
  }

  lemma AcceptanceEffect(db: Database, ev: StartEvidence)
    ensures var next := ApplyAcceptance(db, ev).db; next == db.(tables := next.tables)
  {
    hide Process;
  }

  lemma ClaimEffect(db: Database, ev: StartEvidence, expected: int, eventID: string, safe: bool)
    ensures var next := ClaimStart(db, ev, expected, eventID, safe).db;
            next != db ==>
              && ev.operationID in db.executions
              && next.executions == db.executions[ev.operationID := db.executions[ev.operationID].(
                                      status := G.Started, revision := 1,
                                      evidence := Some(StartCommand.Evidence.Evidence(Claim, ev.evidenceRef,
                                          ev.runID)))]
              && next.batches == db.batches && next.receipts == db.receipts && next.workspace == db.workspace
              && exists r :: next.outbox == db.outbox + [r] && r.event.id == eventID
  {
    hide Process, AcceptedApplied, EventIDTaken;
  }

  lemma ClaimedByPlan(p: Plan, db: Database)
    requires p.Valid() && Agreement(db) && Underway(p, db, AcceptedStage, {p.start.eventID})
    ensures var next := ClaimStart(db, p.Evidence(p.claimRef), 0, p.claimID, true).db;
            && Underway(p, next, StartedStage, {p.start.eventID, p.claimID})
            && next.executions[p.start.operationID].evidence
               == Some(StartCommand.Evidence.Evidence(Claim, p.claimRef, p.runID))
  {
    hide AtStage, Agreement, ClaimStart;
    var next := ClaimStart(db, p.Evidence(p.claimRef), 0, p.claimID, true).db;
    ClaimSucceedsExactly(db, p.Evidence(p.claimRef), 0, p.claimID, true);
    ClaimEffect(db, p.Evidence(p.claimRef), 0, p.claimID, true);
    StillUnderway(p, db, next, StartedStage, {p.start.eventID, p.claimID});
  }

  /** Every plan brings its operation to SUCCEEDED 2 and its batch to RUNNING 2. */
  lemma StartCanSucceed(p: Plan)
    requires p.Valid()
    ensures var db := ExecuteAll(EmptyDatabase(p.workspace), p.Commands());
            && p.start.operationID in db.executions
            && db.executions[p.start.operationID].batchID == p.start.batchID && p.start.batchID in db.batches
            && AtStage(db, p.start.operationID, SucceededStage)
  {
    hide Agreement, ExecuteAll, StartBatch, ApplyAcceptance, ClaimStart, ConfirmRunning, AtStage;
    var cs := p.Commands();
    Nothing(p.workspace, cs);
    NextCommand(p.workspace, cs, 0);
    NextCommand(p.workspace, cs, 1);
    NextCommand(p.workspace, cs, 2);
    NextCommand(p.workspace, cs, 3);
    OpenedByPlan(p);
    AcceptedByPlan(p, AfterCommands(p.workspace, cs, 1));
    ClaimedByPlan(p, AfterCommands(p.workspace, cs, 2));
    ConfirmSucceedsExactly(AfterCommands(p.workspace, cs, 3), p.Evidence(p.activationRef), 1, p.batchID, p.successID,
                           true);
    assert cs[..4] == cs;
  }

  lemma Nothing(workspace: string, cs: seq<Command>)
    ensures AfterCommands(workspace, cs, 0) == EmptyDatabase(workspace)
  {
    assert cs[..0] == [];
  }
}
