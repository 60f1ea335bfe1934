/** What a call does next, by the history and the answer alone. The specification says when a request is
    in order; here it is also made, so no call gives up where it could go on, and none goes on by a way of
    its own. */
module DispatcherReactions {
  import opened CheckpointModel
  import opened DispatcherMachine
  import opened DeliveryHistory
  import opened LocalSafety
  import opened StepAccounting
  import opened DeliveryWorld

  /** Behind the clock: a finished record is redated, one that is not due is handed back unsaved, and
      with every other one the artifact is read. */
  lemma ClockDecides(delay: int, cell: Cell, body: Body, ans: Answer)
    requires Consistent(delay, cell, body) && body.ReadClock? && Honest(cell.disk, ReqNow, ans)
    ensures var next, dated := BodyResume(delay, body, ans), cell.disk.(lastObserved := ans.now);
            var due := cell.disk.nextRetryAt.None? || cell.disk.nextRetryAt.value <= ans.now;
            if cell.disk.state.StateCompleted? || cell.disk.state.StateBlocked? || cell.disk.state.StateCancelled?
               || cell.disk.state.StateCancelUnconfirmed? then next == SaveAndReturn(ByStep, dated, None)
            else if due || cell.disk.state.StatePending? || cell.disk.state.StateWaitingRetry? then
              BodyRequest(next) == ReqArtifact(cell.disk.task.artifactPath)
            else next == Finished(Outcome(Some(dated), None))
  {
  }

  /** AO is observed exactly behind a fitting artifact; any other ends the task. */
  lemma ArtifactDecides(delay: int, cell: Cell, body: Body, ans: Answer)
    requires Consistent(delay, cell, body) && body.ReadArtifact? && Honest(cell.disk, BodyRequest(body), ans)
    ensures var next, hist := BodyResume(delay, body, ans), CellAfter(delay, cell, body, ans).hist;
            && (BodyRequest(next).ReqObserve? <==> ArtifactChecked(hist))
            && (!ArtifactChecked(hist) ==> next.SaveAndReturn? && next.cp.state.StateBlocked? && next.err.Some?)
  {
    ExchangeKeepsStore(delay, cell, body, ans);
  }

  /** A delivery that may be on its way is recovered and never sent; one that AO does not know is
      prepared if it is due and an attempt is left; everything else is saved. */
  lemma ObservationDecides(delay: int, cell: Cell, body: Body, ans: Answer)
    requires Consistent(delay, cell, body) && body.ObserveDelivery? && Honest(cell.disk, BodyRequest(body), ans)
    ensures var next, hist, disk := BodyResume(delay, body, ans), CellAfter(delay, cell, body, ans).hist, cell.disk;
            var sendable := SessionUp(hist) && ans.obs.delivery.DeliveryNotFound?
                            && (disk.state.StatePending? || disk.state.StateWaitingRetry?);
            && (BodyRequest(next).ReqRecoverOnly?
                <==> SessionUp(hist) && (disk.state.StateDeliveryUncertain? || ans.obs.delivery.DeliveryReserved?))
            && (BodyRequest(next).ReqPreflight?
                <==> sendable && !disk.NotYetDue(body.now) && disk.attempts < disk.task.retryBudget)
            && (next.Finished? <==> sendable && disk.NotYetDue(body.now))
            && (next.Finished? ==> next.out == Outcome(Some(body.cp), None))
            && (next.Finished? || next.SaveAndReturn? || next.Recover? || next.Preflight?)
  {
    ExchangeKeepsStore(delay, cell, body, ans);
    NoDeadlineWhilePending(cell);
    hide StoreInv, CellAfter;
  }

  lemma NoDeadlineWhilePending(cell: Cell)
    requires StoreInv(cell)
    ensures cell.disk.state.StatePending? ==> cell.disk.nextRetryAt.None?
  {
  }

  /** The rest of a Step: a recovery is recorded, a preflight that goes through is written ahead, what is
      written ahead is sent, and the reply is recorded. */
  lemma SendDecides(delay: int, cell: Cell, body: Body, ans: Answer)
    requires Consistent(delay, cell, body) && Honest(cell.disk, BodyRequest(body), ans)
    ensures var next := BodyResume(delay, body, ans);
            && (body.Recover? || body.AwaitSend? ==> next.SaveAndReturn?)
            && (body.Preflight? ==> if ans.Ack? then next.WriteAhead? else next.SaveAndReturn?)
            && (body.WriteAhead? ==> if ans.Ack? then BodyRequest(next).ReqSend?
                                     else next == Finished(Outcome(Some(body.cp), Some(ans.err))))
            && (body.IssueSend? ==> next.AwaitSend?)
            && (body.SaveAndReturn? ==> next == Finished(Outcome(Some(body.cp),
                                                                if ans.Ack? then body.err else Some(ans.err))))
            && (body.LoadForStep? ==> if ans.Loaded? then next == ReadClock(cell.disk)
                                      else next == Finished(Outcome(None, Some(ans.err))))
  {
    hide StoreInv, BodyInv;
  }

  /** A Cancel ends at once for a task that is over, cancels one that was never sent, marks any other,
      and then finds the turn if the file does not know it. */
  lemma CancelBegins(delay: int, cell: Cell, body: Body, ans: Answer)
    requires Consistent(delay, cell, body) && Honest(cell.disk, BodyRequest(body), ans)
    ensures var next, disk := BodyResume(delay, body, ans), cell.disk;
            && (body.LoadForCancel? && ans.Failed? ==> next == Finished(Outcome(None, Some(ans.err))))
            && (body.LoadForCancel? && ans.Loaded?
                ==> if Over(disk) then next == Finished(Outcome(Some(disk), None))
                    else if Unsent(disk) then next.SaveAndReturn? && next.err.None? && next.cp.lastObserved == body.now
                    else next.MarkCancelled? && next.cp.lastObserved == body.now)
            && (body.MarkCancelled? && ans.Ack?
                ==> if body.cp.aoTurnID == "" then BodyRequest(next).ReqRecoverOnly? else BodyRequest(next).ReqObserve?)
            && ((body.MarkCancelled? || body.SaveTurn?) && !ans.Ack?
                ==> next == Finished(Outcome(Some(body.cp), Some(ans.err))))
            && (body.SaveTurn? && ans.Ack? ==> BodyRequest(next).ReqObserve?)
            && (body.CancelRecover?
                ==> if NamesTurn(ans) then next.SaveTurn?
                    else next == Finished(Outcome(Some(disk), Some(if ans.Failed? then ans.err
                                                                   else ErrDeliveryUncertain))))
  {
    hide StoreInv;
  }

  /** Once it knows the turn: an observation that settles it is recorded, before the Stop and behind it;
      otherwise the turn is stopped if the session is the run's own. An error tells how far it came. */
  lemma CancelDecides(delay: int, cell: Cell, body: Body, ans: Answer)
    requires Consistent(delay, cell, body) && Honest(cell.disk, BodyRequest(body), ans)
    requires body.CancelObserve? || body.StopTurn? || body.ObserveAfterFailedStop? || body.ObserveAfterStop?
    ensures var next, disk := BodyResume(delay, body, ans), cell.disk;
            var settled := ans.Observed? && ans.obs.sessionExists
                           && (ans.obs.delivery.DeliveryStopped? || ans.obs.delivery.DeliveryCompleted?
                               || ans.obs.delivery.DeliveryRejected?);
            var own := disk.task.sessionExclusive && disk.task.runOwner != "";
            && (next.SaveAndReturn? <==> settled)
            && (BodyRequest(next).ReqStop? <==> body.CancelObserve? && ans.Observed? && !settled && own)
            && (BodyRequest(next).ReqObserve? <==> body.StopTurn?)
            && (next.Finished? ==> next.out.cp == Some(disk) && next.out.err == Some(
                  if body.ObserveAfterFailedStop? then body.cause
                  else if ans.Failed? then ans.err
                  else if body.CancelObserve? then ErrSessionOwnerMismatch
                  else ErrDeliveryUncertain))
            && (body.StopTurn? && ans.Failed? ==> next == ObserveAfterFailedStop(disk, ans.err))
            && (body.StopTurn? && ans.Ack? ==> next == ObserveAfterStop(disk))
  {
    hide StoreInv;
  }

  /** The error that goes with a Step's record: none when nothing went wrong, what a collaborator has said,
      that a delivery is uncertain, or a refusal that carries the recorded reason. */
  function ToldWith(req: Request, ans: Answer, kind: ErrorKind): Option<Error> {
    if kind.NoError? || kind.HumanStop? then None
    else if ans.Failed? then Some(ans.err)
    else if req.ReqRecoverOnly? then Some(ErrDeliveryUncertain)
    else Some(ErrRefused(kind))
  }

  lemma CauseIsTold(delay: int, cell: Cell, body: Body, ans: Answer)
    requires Consistent(delay, cell, body) && Honest(cell.disk, BodyRequest(body), ans) && CallerOf(body).ByStep?
    requires !body.ReadClock?
    ensures var next := BodyResume(delay, body, ans);
            next.SaveAndReturn? ==> next.err == ToldWith(BodyRequest(body), ans, next.cp.lastErrorKind)
  {
    hide StoreInv;
  }

  /** All of this is so for every running process of every reachable world. */
  lemma InEveryRun(w: World, acts: seq<Action>, v: World, p: nat)
    requires Init(w) && Reaches(w, acts, v) && p in v.procs && v.procs[p].phase.Running?
    ensures v.procs[p].store in v.cells
    ensures Consistent(v.procs[p].cfg.Delay(), v.cells[v.procs[p].store], v.procs[p].phase.body)
  {
    hide StoreInv, BodyInv;
    InitInv(w);
    RunsKeepInv(w, acts, v);
    assert ProcInv(v, p);
  }
}
