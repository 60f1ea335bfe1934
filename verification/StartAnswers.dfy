/** What the commands of a start answer, exactly and by the rows alone: on success, on a repetition, and
    on every refusal. */
module StartAnswers {
  import opened CheckpointModel
  import opened EventProjection
  import opened StartCommand
  import opened StartSuccess
  import G = StateGraph

  // ----- evidence -----

  predicate Given(ev: StartEvidence) {
    "" !in {ev.workspace, ev.operationID, ev.receiptID, ev.batchID, ev.actor, ev.runID, ev.evidenceRef}
  }

  predicate Known(db: Database, ev: StartEvidence) {
    ev.workspace == db.workspace && ev.operationID in db.executions
  }

  /** The evidence names the operation's receipt, batch and actor. */
  predicate Named(db: Database, ev: StartEvidence) {
    && Given(ev) && Known(db, ev)
    && var e := db.executions[ev.operationID];
       e.receiptID == ev.receiptID && e.batchID == ev.batchID && e.actor == ev.actor
  }

  /** The receipt of every operation names the operation and its batch. */
  predicate Receipted(db: Database) {
    forall o :: o in db.executions ==>
      var e := db.executions[o];
      e.receiptID in db.receipts && db.receipts[e.receiptID] == CommandReceipt(o, Some(e.batchID))
  }

  /** What holds after any commands. */
  ghost predicate InOrder(db: Database) {
    Agreement(db) && Receipted(db)
  }

  lemma SameEvidence(db: Database, ev: StartEvidence)
    requires InOrder(db)
    ensures Complete(ev) <==> Given(ev)
    ensures Loads(db, ev) <==> Known(db, ev)
    ensures Evident(db, ev) <==> Named(db, ev)
    ensures Known(db, ev) ==> db.executions[ev.operationID].batchID in db.batches
  {
    hide OutboxInv, RowsInv, NoneConfirming, AtStage;
    assert Loads(db, ev) <==> Known(db, ev) by {
      if Known(db, ev) {
        assert OperationInv(db, ev.operationID);
      }
    }
  }

  // ----- what holds after any commands -----

  lemma PublishKeepsBinding(db: Database, event: Event, name: EventName, operationID: string, receiptID: string)
    ensures var out := Publish(db, event, name, operationID, receiptID);
            out.db.executions == db.executions && out.db.receipts == db.receipts && out.db.workspace == db.workspace
  {
    hide Process, EventIDTaken;
  }

  lemma CommandKeepsReceipts(db: Database, c: Command)
    requires Receipted(db)
    ensures Receipted(Execute(db, c).db)
  {
    hide Publish, Process, AcceptedApplied, FindAcceptance, EventIDTaken;
    match c
    case CmdStart(_, _) =>
    case CmdAccept(_) =>
    case CmdClaim(ev, expected, eventID, safe) =>
      var work := ClaimRow(db, ev, expected);
      if work.Some? {
        PublishKeepsBinding(work.value, EventOf(db, eventID, OPERATION, ev.operationID, 1, safe), StartClaimed,
                            ev.operationID, ev.receiptID);
      }
    case CmdConfirm(ev, expected, batchEventID, eventID, safe) => ConfirmKeepsReceipts(db, c);
  }

  lemma ConfirmKeepsReceipts(db: Database, c: Command)
    requires Receipted(db) && c.CmdConfirm?
    ensures Receipted(Execute(db, c).db)
  {
    hide Publish, ConfirmReplay;
    var ev := c.ev;
    var x := ActivateBatch(db, ev);
    if x.Some? && ConfirmRow(x.value, ev, c.expected).Some? {
      var work := ConfirmRow(x.value, ev, c.expected).value;
      assert Receipted(work);
      var first := EventOf(db, c.batchEventID, BATCH, ev.batchID, 2, c.safe);
      PublishKeepsBinding(work, first, StartActivated, ev.operationID, ev.receiptID);
      PublishKeepsBinding(Publish(work, first, StartActivated, ev.operationID, ev.receiptID).db,
                          EventOf(db, c.eventID, OPERATION, ev.operationID, 2, c.safe), StartSucceeded,
                          ev.operationID, ev.receiptID);
    }
  }

  lemma {:induction false} AnyCommands(workspace: string, cs: seq<Command>)
    ensures InOrder(ExecuteAll(EmptyDatabase(workspace), cs))
  {
    hide Agreement, Execute;
    if cs == [] {
      EmptyAgreement(workspace);
    } else {
      AnyCommands(workspace, cs[..|cs| - 1]);
      CommandKeepsAgreement(ExecuteAll(EmptyDatabase(workspace), cs[..|cs| - 1]), cs[|cs| - 1]);
      CommandKeepsReceipts(ExecuteAll(EmptyDatabase(workspace), cs[..|cs| - 1]), cs[|cs| - 1]);
    }
  }

  // ----- claims -----

  /** The operation has been started by this very run, with this very reference. */
  predicate ClaimedBy(db: Database, ev: StartEvidence) {
    && Named(db, ev)
    && var e := db.executions[ev.operationID];
       && e.status.Started? && e.evidence.Some?
       && e.evidence.value.kind.Claim? && e.evidence.value.ref == ev.evidenceRef && e.evidence.value.runID == ev.runID
  }

  /** The operation waits for a claim at this revision. */
  predicate Unclaimed(db: Database, ev: StartEvidence, expected: int) {
    && Named(db, ev) && expected == 0
    && db.executions[ev.operationID].batchID in db.batches && AtStage(db, ev.operationID, AcceptedStage)
  }

  predicate SameRevision(db: Database, ev: StartEvidence, expected: int)
    requires Known(db, ev)
  {
    db.executions[ev.operationID].revision == expected
  }

  /** The revision of an operation tells its status. */
  lemma StatusByRevision(db: Database, o: string)
    requires InOrder(db) && o in db.executions
    ensures var e := db.executions[o];
            && (e.revision == 0 <==> e.status.Prepared?) && (e.revision == 1 <==> e.status.Started?)
            && (e.revision == 2 <==> e.status.Succeeded?) && 0 <= e.revision <= 2
  {
    hide OutboxInv, RowsInv, NoneConfirming, CurrentRevision, AppliedEvent;
    OperationFacts(db, o);
    var stage :| AtStage(db, o, stage);
  }

  /** The claim has nothing to repeat, and its guards let it through. */
  predicate PassesClaim(db: Database, ev: StartEvidence, expected: int)
    requires Evident(db, ev)
  {
    var e, b := db.executions[ev.operationID], db.batches[ev.batchID];
    && !ClaimReplay(e, ev, expected) && e.revision == expected
    && AcceptedApplied(db, ev.operationID, ev.receiptID, ev.batchID)
    && e.status.Prepared? && b.status.Created? && b.revision == Some(1)
  }

  lemma ClaimStopped(db: Database, ev: StartEvidence, expected: int, eventID: string, safe: bool)
    requires Evident(db, ev) ==> !PassesClaim(db, ev, expected)
    ensures ClaimStart(db, ev, expected, eventID, safe)
            == Result(db,
                      if !Complete(ev) then Invalid else if !Loads(db, ev) then NotFound
                      else if !Bound(db, ev) then Invalid
                      else
                        var e := db.executions[ev.operationID];
                        if ClaimReplay(e, ev, expected) then Done(G.Started, 1)
                        else if e.revision != expected then RevisionConflict(e.revision)
                        else Invalid)
  {
    hide Complete, AcceptedApplied, ClaimReplay;
  }

  lemma ClaimPasses(db: Database, ev: StartEvidence, expected: int, eventID: string, safe: bool)
    requires Evident(db, ev) && PassesClaim(db, ev, expected)
    requires !safe || EventIDTaken(db, eventID)
    ensures ClaimStart(db, ev, expected, eventID, safe) == Result(db, if safe then KeyTaken else Unsafe)
  {
    hide Complete, AcceptedApplied, ClaimReplay, EventIDTaken, Publish;
    var work := ClaimRow(db, ev, expected).value;
    SameIDs(db, work, eventID);
    PublishRefused(work, EventOf(db, eventID, OPERATION, ev.operationID, 1, safe), StartClaimed, ev.operationID,
                   ev.receiptID);
  }

  lemma NamedIsEvident(db: Database, ev: StartEvidence)
    requires InOrder(db) && Named(db, ev)
    ensures Evident(db, ev) && OperationInv(db, ev.operationID)
  {
    SameEvidence(db, ev);
    hide Complete, Loads, Bound, OutboxInv, RowsInv, NoneConfirming, OperationInv;
  }

  /** A prepared operation has a created batch, and its acceptance is applied at one stage. */
  lemma PreparedStage(db: Database, ev: StartEvidence)
    requires Evident(db, ev) && OperationInv(db, ev.operationID)
    ensures var e := db.executions[ev.operationID];
            && (e.status.Prepared? ==>
                  && db.batches[ev.batchID] == Batch(G.Created, Some(1))
                  && (AcceptedApplied(db, ev.operationID, ev.receiptID, ev.batchID)
                      <==> AtStage(db, ev.operationID, AcceptedStage)))
            && (AtStage(db, ev.operationID, AcceptedStage) ==> e.status.Prepared?)
  {
    hide OperationInv, CurrentRevision, AcceptedApplied, Complete;
    if db.executions[ev.operationID].status.Prepared? {
      PreparedBatch(db, ev.operationID);
      StageOfClaim(db, ev);
    }
  }

  /** A started operation can be confirmed by the run that has claimed it. */
  lemma StartedStageOf(db: Database, ev: StartEvidence)
    requires Evident(db, ev) && OperationInv(db, ev.operationID) && db.executions[ev.operationID].status.Started?
    ensures var e := db.executions[ev.operationID];
            && e.evidence.Some? && db.batches[ev.batchID] == Batch(G.Created, Some(1))
            && (e.evidence.value.runID == ev.runID ==> Confirmable(db, ev))
  {
    hide OperationInv, CurrentRevision, Complete;
    StageOfConfirm(db, ev);
  }

  lemma PreparedBatch(db: Database, o: string)
    requires o in db.executions && OperationInv(db, o) && db.executions[o].status.Prepared?
    ensures db.executions[o].batchID in db.batches
    ensures db.batches[db.executions[o].batchID] == Batch(G.Created, Some(1))
  {
    hide CurrentRevision, AppliedEvent;
    var stage :| AtStage(db, o, stage);
  }

  /** The guards let a claim through exactly when the operation waits for it. */
  lemma PassesExactly(db: Database, ev: StartEvidence, expected: int)
    requires InOrder(db) && Named(db, ev)
    ensures Evident(db, ev) && (PassesClaim(db, ev, expected) <==> Unclaimed(db, ev, expected))
    ensures ClaimReplay(db.executions[ev.operationID], ev, expected) <==> ClaimedBy(db, ev) && expected == 0
    ensures Unclaimed(db, ev, expected)
            ==> db.executions[ev.operationID].status.Prepared? && db.executions[ev.operationID].revision == expected
  {
    hide InOrder, AcceptedApplied, Complete, AtStage, Given, OperationInv;
    NamedIsEvident(db, ev);
    PreparedStage(db, ev);
    StatusByRevision(db, ev.operationID);
  }

  lemma ClaimOfFitting(db: Database, ev: StartEvidence, expected: int, eventID: string, safe: bool)
    requires InOrder(db) && Named(db, ev)
    ensures var out, e := ClaimStart(db, ev, expected, eventID, safe), db.executions[ev.operationID];
            if ClaimedBy(db, ev) && expected == 0 then out == Result(db, Done(G.Started, 1))
            else if e.revision != expected then out == Result(db, RevisionConflict(e.revision))
            else if !Unclaimed(db, ev, expected) then out == Result(db, Invalid)
            else if !safe then out == Result(db, Unsafe)
            else if EventIDTaken(db, eventID) then out == Result(db, KeyTaken)
            else out.reply == Done(G.Started, 1) && out.db != db
    ensures Unclaimed(db, ev, expected)
            ==> db.executions[ev.operationID].status.Prepared? && db.executions[ev.operationID].revision == expected
  {
    PassesExactly(db, ev, expected);
    ClaimSucceedsExactly(db, ev, expected, eventID, safe);
    hide ClaimStart, InOrder, AtStage, EventIDTaken, Complete, Loads, Bound, AcceptedApplied;
    if !PassesClaim(db, ev, expected) {
      ClaimStopped(db, ev, expected, eventID, safe);
    } else if !safe || EventIDTaken(db, eventID) {
      ClaimPasses(db, ev, expected, eventID, safe);
    }
  }

  /** A claim answers exactly so. */
  lemma ClaimAnswers(db: Database, ev: StartEvidence, expected: int, eventID: string, safe: bool)
    requires InOrder(db)
    ensures var out := ClaimStart(db, ev, expected, eventID, safe);
            var new' := Unclaimed(db, ev, expected);
            && (out.reply == Done(G.Started, 1) && out.db == db <==> ClaimedBy(db, ev) && expected == 0)
            && (out.db != db <==> new' && safe && !EventIDTaken(db, eventID))
            && (out.db != db ==> out.reply == Done(G.Started, 1))
            && (out.reply.NotFound? <==> Given(ev) && !Known(db, ev))
            && (out.reply.RevisionConflict?
                <==> Named(db, ev) && !SameRevision(db, ev, expected) && !(ClaimedBy(db, ev) && expected == 0))
            && (out.reply.RevisionConflict? ==> SameRevision(db, ev, out.reply.actual))
            && (out.reply.Invalid?
                <==> || !Given(ev)
                     || (Known(db, ev) && !Named(db, ev))
                     || (Named(db, ev) && SameRevision(db, ev, expected) && !new'))
            && (out.reply.Unsafe? <==> new' && !safe)
            && (out.reply.KeyTaken? <==> new' && safe && EventIDTaken(db, eventID))
  {
    hide InOrder, EventIDTaken, AtStage, ClaimStart, Complete, Loads, Bound, Given;
    SameEvidence(db, ev);
    if Named(db, ev) {
      StatusByRevision(db, ev.operationID);
      ClaimOfFitting(db, ev, expected, eventID, safe);
    } else {
      ClaimStopped(db, ev, expected, eventID, safe);
    }
  }

  /** A claim that has succeeded can be repeated, under any event identifier; another run, or another
      reference, is told the revision. */
  lemma ClaimRepeated(db: Database, ev: StartEvidence, expected: int, eventID: string, safe: bool, other: StartEvidence,
                      nextID: string, nextSafe: bool)
    requires InOrder(db) && ClaimStart(db, ev, expected, eventID, safe).reply == Done(G.Started, 1)
    requires other == ev.(runID := other.runID, evidenceRef := other.evidenceRef) && Given(other)
    ensures var next := ClaimStart(db, ev, expected, eventID, safe).db;
            ClaimStart(next, other, expected, nextID, nextSafe)
            == Result(next, if other == ev then Done(G.Started, 1) else RevisionConflict(1))
  {
    hide InOrder, EventIDTaken, AtStage, ClaimStart, Given;
    var next := ClaimStart(db, ev, expected, eventID, safe).db;
    ClaimAnswers(db, ev, expected, eventID, safe);
    ClaimedAfter(db, ev, expected, eventID, safe);
    StatusByRevision(next, other.operationID);
    ClaimOfFitting(next, other, expected, nextID, nextSafe);
  }

  lemma ClaimedAfter(db: Database, ev: StartEvidence, expected: int, eventID: string, safe: bool)
    requires InOrder(db) && ClaimStart(db, ev, expected, eventID, safe).reply == Done(G.Started, 1)
    ensures var next := ClaimStart(db, ev, expected, eventID, safe).db;
            InOrder(next) && ClaimedBy(next, ev) && next.workspace == db.workspace
  {
    hide Agreement, ClaimStart, AtStage, EventIDTaken, Given, Receipted;
    CommandKeepsAgreement(db, CmdClaim(ev, expected, eventID, safe));
    CommandKeepsReceipts(db, CmdClaim(ev, expected, eventID, safe));
    ClaimAnswers(db, ev, expected, eventID, safe);
    ClaimEffect(db, ev, expected, eventID, safe);
  }

  // ----- confirmations -----

  predicate ConfirmedBy(db: Database, ev: StartEvidence) {
    && Named(db, ev)
    && var e := db.executions[ev.operationID];
       && e.status.Succeeded? && e.evidence.Some?
       && e.evidence.value.kind.Activation? && e.evidence.value.ref == ev.evidenceRef
       && e.evidence.value.runID == ev.runID
  }

  /** The operation was started by this run and waits for its confirmation at this revision. */
  predicate Unconfirmed(db: Database, ev: StartEvidence, expected: int) {
    && Named(db, ev) && expected == 1
    && var e := db.executions[ev.operationID];
       e.status.Started? && e.evidence.Some? && e.evidence.value.runID == ev.runID
  }

  predicate KeysTaken(db: Database, batchEventID: string, eventID: string) {
    EventIDTaken(db, batchEventID) || EventIDTaken(db, eventID) || batchEventID == eventID
  }

  lemma BatchOfSucceeded(db: Database, o: string)
    requires InOrder(db) && o in db.executions && db.executions[o].status.Succeeded?
    ensures db.executions[o].batchID in db.batches
            && db.batches[db.executions[o].batchID] == Batch(G.RunningBatch, Some(2))
  {
    hide OutboxInv, RowsInv, NoneConfirming, CurrentRevision, AppliedEvent;
    OperationFacts(db, o);
    var stage :| AtStage(db, o, stage);
  }

  predicate PassesConfirm(db: Database, ev: StartEvidence, expected: int)
    requires Evident(db, ev)
  {
    var e, b := db.executions[ev.operationID], db.batches[ev.batchID];
    && !ConfirmReplay(e, b, ev, expected) && e.revision == expected
    && e.status.Started? && b == Batch(G.Created, Some(1)) && e.evidence.Some? && e.evidence.value.runID == ev.runID
  }

  lemma ConfirmStopped(db: Database, ev: StartEvidence, expected: int, batchEventID: string, eventID: string,
                       safe: bool)
    requires Evident(db, ev) ==> !PassesConfirm(db, ev, expected)
    ensures ConfirmRunning(db, ev, expected, batchEventID, eventID, safe)
            == Result(db,
                      if !Complete(ev) then Invalid else if !Loads(db, ev) then NotFound
                      else if !Bound(db, ev) then Invalid
                      else
                        var e := db.executions[ev.operationID];
                        if ConfirmReplay(e, db.batches[e.batchID], ev, expected) then Done(G.Succeeded, 2)
                        else if e.revision != expected then RevisionConflict(e.revision)
                        else Invalid)
  {
    hide Complete, ConfirmReplay;
  }

  /** The guards let a confirmation through exactly when the operation waits for it. */
  lemma PassesConfirmExactly(db: Database, ev: StartEvidence, expected: int)
    requires InOrder(db) && Named(db, ev)
    ensures Evident(db, ev) && (PassesConfirm(db, ev, expected) <==> Unconfirmed(db, ev, expected))
    ensures Unconfirmed(db, ev, expected) ==> Confirmable(db, ev)
    ensures ConfirmReplay(db.executions[ev.operationID], db.batches[ev.batchID], ev, expected)
            <==> ConfirmedBy(db, ev) && expected == 1
    ensures Unconfirmed(db, ev, expected) ==> db.executions[ev.operationID].revision == expected
  {
    hide InOrder, Complete, Given, OperationInv, Confirmable;
    NamedIsEvident(db, ev);
    StatusByRevision(db, ev.operationID);
    if db.executions[ev.operationID].status.Started? {
      StartedStageOf(db, ev);
    }
    if db.executions[ev.operationID].status.Succeeded? {
      BatchOfSucceeded(db, ev.operationID);
    }
  }

  lemma ConfirmPasses(db: Database, ev: StartEvidence, expected: int, batchEventID: string, eventID: string, safe: bool)
    requires Agreement(db) && Evident(db, ev) && PassesConfirm(db, ev, expected) && Confirmable(db, ev) && expected == 1
    requires !safe || KeysTaken(db, batchEventID, eventID)
    ensures ConfirmRunning(db, ev, expected, batchEventID, eventID, safe)
            == Result(db, if safe then KeyTaken else Unsafe)
  {
    hide Complete, ConfirmReplay, EventIDTaken, Agreement, AtStage, PublishBoth;
    ConfirmRefused(db, ev, batchEventID, eventID, safe);
    hide Confirmable, ActivateBatch, ConfirmRow;
  }

  lemma ConfirmOfFitting(db: Database, ev: StartEvidence, expected: int, batchEventID: string, eventID: string,
                         safe: bool)
    requires InOrder(db) && Named(db, ev)
    ensures var out, e := ConfirmRunning(db, ev, expected, batchEventID, eventID, safe), db.executions[ev.operationID];
            if ConfirmedBy(db, ev) && expected == 1 then out == Result(db, Done(G.Succeeded, 2))
            else if e.revision != expected then out == Result(db, RevisionConflict(e.revision))
            else if !Unconfirmed(db, ev, expected) then out == Result(db, Invalid)
            else if !safe then out == Result(db, Unsafe)
            else if KeysTaken(db, batchEventID, eventID) then out == Result(db, KeyTaken)
            else out.reply == Done(G.Succeeded, 2) && out.db != db
    ensures Unconfirmed(db, ev, expected) ==> db.executions[ev.operationID].revision == expected
  {
    PassesConfirmExactly(db, ev, expected);
    ConfirmSucceedsExactly(db, ev, expected, batchEventID, eventID, safe);
    hide ConfirmRunning, InOrder, AtStage, EventIDTaken, Complete, Loads, Bound, Confirmable;
    if !PassesConfirm(db, ev, expected) {
      ConfirmStopped(db, ev, expected, batchEventID, eventID, safe);
    } else if !safe || KeysTaken(db, batchEventID, eventID) {
      ConfirmPasses(db, ev, expected, batchEventID, eventID, safe);
    }
  }

  /** A confirmation answers exactly so. */
  lemma ConfirmAnswers(db: Database, ev: StartEvidence, expected: int, batchEventID: string, eventID: string,
                       safe: bool)
    requires InOrder(db)
    ensures var out := ConfirmRunning(db, ev, expected, batchEventID, eventID, safe);
            var new' := Unconfirmed(db, ev, expected);
            && (out.reply == Done(G.Succeeded, 2) && out.db == db <==> ConfirmedBy(db, ev) && expected == 1)
            && (out.db != db <==> new' && safe && !KeysTaken(db, batchEventID, eventID))
            && (out.db != db ==> out.reply == Done(G.Succeeded, 2))
            && (out.reply.NotFound? <==> Given(ev) && !Known(db, ev))
            && (out.reply.RevisionConflict?
                <==> Named(db, ev) && !SameRevision(db, ev, expected) && !(ConfirmedBy(db, ev) && expected == 1))
            && (out.reply.RevisionConflict? ==> SameRevision(db, ev, out.reply.actual))
            && (out.reply.Invalid?
                <==> || !Given(ev)
                     || (Known(db, ev) && !Named(db, ev))
                     || (Named(db, ev) && SameRevision(db, ev, expected) && !new'))
            && (out.reply.Unsafe? <==> new' && !safe)
            && (out.reply.KeyTaken? <==> new' && safe && KeysTaken(db, batchEventID, eventID))
  {
    hide InOrder, KeysTaken, ConfirmRunning, Complete, Loads, Bound, Given;
    SameEvidence(db, ev);
    if Named(db, ev) {
      StatusByRevision(db, ev.operationID);
      ConfirmOfFitting(db, ev, expected, batchEventID, eventID, safe);
    } else {
      ConfirmStopped(db, ev, expected, batchEventID, eventID, safe);
    }
  }

  lemma ConfirmEffect(db: Database, ev: StartEvidence, batchEventID: string, eventID: string, safe: bool)
    ensures var next := ConfirmRunning(db, ev, 1, batchEventID, eventID, safe).db;
            next != db ==>
              && ev.operationID in db.executions && ev.operationID in next.executions && next.workspace == db.workspace
              && var e := db.executions[ev.operationID];
                 && e.evidence.Some?
                 && next.executions[ev.operationID]
                    == e.(status := G.Succeeded, revision := 2,
                          evidence := Some(StartCommand.Evidence.Evidence(Activation, ev.evidenceRef,
                                                                          e.evidence.value.runID)))
  {
    hide Publish, ConfirmReplay, Complete;
    var x := ActivateBatch(db, ev);
    if x.Some? && ConfirmRow(x.value, ev, 1).Some? {
      var work := ConfirmRow(x.value, ev, 1).value;
      var first := EventOf(db, batchEventID, BATCH, ev.batchID, 2, safe);
      PublishKeepsBinding(work, first, StartActivated, ev.operationID, ev.receiptID);
      PublishKeepsBinding(Publish(work, first, StartActivated, ev.operationID, ev.receiptID).db,
                          EventOf(db, eventID, OPERATION, ev.operationID, 2, safe), StartSucceeded,
                          ev.operationID, ev.receiptID);
    }
  }

  lemma ConfirmedAfter(db: Database, ev: StartEvidence, batchEventID: string, eventID: string, safe: bool)
    requires InOrder(db) && ConfirmRunning(db, ev, 1, batchEventID, eventID, safe).reply == Done(G.Succeeded, 2)
    ensures var next := ConfirmRunning(db, ev, 1, batchEventID, eventID, safe).db;
            InOrder(next) && ConfirmedBy(next, ev) && next.workspace == db.workspace
  {
    hide Agreement, ConfirmRunning, EventIDTaken, Given, Receipted, KeysTaken;
    CommandKeepsAgreement(db, CmdConfirm(ev, 1, batchEventID, eventID, safe));
    CommandKeepsReceipts(db, CmdConfirm(ev, 1, batchEventID, eventID, safe));
    ConfirmAnswers(db, ev, 1, batchEventID, eventID, safe);
    ConfirmEffect(db, ev, batchEventID, eventID, safe);
  }

  /** A confirmation that has succeeded can be repeated, under any event identifiers; another run, or
      another reference, is told the revision. */
  lemma ConfirmRepeated(db: Database, ev: StartEvidence, batchEventID: string, eventID: string, safe: bool,
                        other: StartEvidence, nextBatchID: string, nextID: string, nextSafe: bool)
    requires InOrder(db) && ConfirmRunning(db, ev, 1, batchEventID, eventID, safe).reply == Done(G.Succeeded, 2)
    requires other == ev.(runID := other.runID, evidenceRef := other.evidenceRef) && Given(other)
    ensures var next := ConfirmRunning(db, ev, 1, batchEventID, eventID, safe).db;
            ConfirmRunning(next, other, 1, nextBatchID, nextID, nextSafe)
            == Result(next, if other == ev then Done(G.Succeeded, 2) else RevisionConflict(2))
  {
    hide InOrder, KeysTaken, ConfirmRunning, Given;
    var next := ConfirmRunning(db, ev, 1, batchEventID, eventID, safe).db;
    ConfirmedAfter(db, ev, batchEventID, eventID, safe);
    StatusByRevision(next, other.operationID);
    ConfirmOfFitting(next, other, 1, nextBatchID, nextID, nextSafe);
  }

  // ----- rows that do not go together -----

  /** The three rows that a load joins. */
  predicate Joined(db: Database, ev: StartEvidence) {
    && Known(db, ev)
    && db.executions[ev.operationID].batchID in db.batches && db.executions[ev.operationID].receiptID in db.receipts
  }

  predicate Answers(db: Database, ev: StartEvidence, expected: int, id: string, otherID: string, safe: bool,
                    reply: Reply)
  {
    && ApplyAcceptance(db, ev) == Result(db, reply)
    && ClaimStart(db, ev, expected, id, safe) == Result(db, reply)
    && ConfirmRunning(db, ev, expected, id, otherID, safe) == Result(db, reply)
  }

  /** Whatever rows there are, in order or not: evidence with a gap is invalid, evidence of rows that are
      not all there is not found, and a receipt that is another operation's or another batch's is
      invalid, like another receipt, batch or actor. */
  lemma UnfitIsRefused(db: Database, ev: StartEvidence, expected: int, id: string, otherID: string, safe: bool)
    ensures !Given(ev) ==> Answers(db, ev, expected, id, otherID, safe, Invalid)
    ensures Given(ev) && !Joined(db, ev) ==> Answers(db, ev, expected, id, otherID, safe, NotFound)
    ensures Given(ev) && Joined(db, ev)
            && (|| !Named(db, ev)
                || var receipt := db.receipts[db.executions[ev.operationID].receiptID];
                   receipt.operationID != ev.operationID || receipt.resourceBatch != Some(ev.batchID))
            ==> Answers(db, ev, expected, id, otherID, safe, Invalid)
  {
    hide FindAcceptance, Process, AcceptedApplied, ClaimReplay, ConfirmReplay, Publish, PublishBoth;
  }

  // ----- openings and acceptances -----

  /** An opening answers exactly so. */
  lemma OpeningAnswers(db: Database, new': NewStart, safe: bool)
    ensures var out := StartBatch(db, new', safe);
            var taken := new'.operationID in db.executions || new'.receiptID in db.receipts
                         || new'.batchID in db.batches || exists r :: r in db.outbox && r.event.id == new'.eventID;
            && (out.reply.KeyTaken? <==> taken)
            && (out.reply.Unsafe? <==> !taken && !safe)
            && (out.reply == Done(G.Prepared, 0) <==> !taken && safe)
            && (out.db != db <==> !taken && safe)
  {
    var out := StartBatch(db, new', safe);
    assert new'.operationID !in db.executions && out.db != db ==> new'.operationID in out.db.executions;
  }

  /** The application of an acceptance answers exactly so. */
  lemma AcceptanceAnswers(db: Database, ev: StartEvidence)
    requires InOrder(db)
    ensures var out := ApplyAcceptance(db, ev);
            && (out.reply == Handled(VerdictApplied) <==> Named(db, ev) && out.db != db)
            && (out.reply == Handled(Deduplicated) <==> Named(db, ev) && out.db == db)
            && (out.reply.NotFound? <==> Given(ev) && !Known(db, ev))
            && (out.reply.Invalid? <==> !Given(ev) || (Known(db, ev) && !Named(db, ev)))
            && (Named(db, ev) ==> db.executions[ev.operationID].batchID in db.batches)
            && (out.db != db <==> Named(db, ev) && AtStage(db, ev.operationID, Opened))
  {
    SameEvidence(db, ev);
    AcceptanceSucceedsExactly(db, ev);
    if Evident(db, ev) {
      ApplyKeepsAgreement(db, ev);
      AcceptanceIsFound(db, ev);
    }
    hide Agreement, Complete, Loads, Bound, Process, AtStage;
  }
}
