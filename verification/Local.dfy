/** One call at a time on one checkpoint: what a program point of the automaton can rely on, and
    the proof that every answer keeps it. */
module LocalSafety {
  import opened CheckpointModel
  import opened DispatcherMachine
  import opened DeliveryHistory

  /** The file of one checkpoint together with its history. */
  datatype Cell = Cell(disk: Checkpoint, hist: History)

  /** The store's side of an answer: a Load reads the file and rejects an invalid record, a Save
      replaces the whole file or leaves it, and may report failure either way. */
  predicate Honest(disk: Checkpoint, req: Request, ans: Answer) {
    && Fits(req, ans)
    && (ans.Loaded? ==> ans.cp == disk && disk.Valid())
    && (req.ReqSave? && Replaces(ans) ==> req.cp.Valid())
  }

  predicate Replaces(ans: Answer) {
    ans.Ack? || (ans.SaveFailed? && ans.replaced)
  }

  function DiskAfter(disk: Checkpoint, req: Request, ans: Answer): Checkpoint {
    if req.ReqSave? && Replaces(ans) then req.cp else disk
  }

  function CallerOf(body: Body): Caller {
    match body
    case SaveAndReturn(caller, _, _) => caller
    case LoadForCancel(_) => ByCancel
    case MarkCancelled(_) => ByCancel
    case CancelRecover(_) => ByCancel
    case SaveTurn(_) => ByCancel
    case CancelObserve(_) => ByCancel
    case StopTurn(_) => ByCancel
    case ObserveAfterFailedStop(_, _) => ByCancel
    case ObserveAfterStop(_) => ByCancel
    case _ => ByStep
  }

  /** The clock reading a Step works with. */
  function TimeOf(body: Body): int {
    match body
    case ReadArtifact(_, now) => now
    case ObserveDelivery(_, now) => now
    case Recover(_, now, _) => now
    case Preflight(_, now) => now
    case IssueSend(_, now) => now
    case _ => 0
  }

  /** Requests that leave the process for AO or for the artifact. */
  predicate IsCall(req: Request) {
    req.ReqArtifact? || req.ReqObserve? || req.ReqPreflight? || req.ReqSend? || req.ReqRecoverOnly? || req.ReqStop?
  }

  /** The history once the body's next request has left. */
  function Asked(hist: History, body: Body): History {
    Then(hist, Called(CallerOf(body), TimeOf(body), BodyRequest(body)))
  }

  /** An answer comes with the request it answers; a request whose process dies first enters the
      history with the crash. The reply to a Send is a request of its own. */
  function HistAfter(delay: int, hist: History, body: Body, ans: Answer): History {
    var req := BodyRequest(body);
    match req
    case ReqLoad => hist
    case ReqNow => hist
    case ReqNothing => hist
    case ReqSave(cp) => if Replaces(ans) then Then(hist, Persisted(CallerOf(body), delay, cp)) else hist
    case ReqSend(_, _, _, _) => Asked(hist, body)
    case ReqSendReply(_) => Then(hist, Answered(req, ans))
    case _ => Then(Asked(hist, body), Answered(req, ans))
  }

  function CellAfter(delay: int, cell: Cell, body: Body, ans: Answer): Cell {
    Cell(DiskAfter(cell.disk, BodyRequest(body), ans), HistAfter(delay, cell.hist, body, ans))
  }

  // ----- invariants -----

  /** The checkpoint on disk agrees with its history. */
  predicate StoreInv(cell: Cell) {
    var disk, hist := cell.disk, cell.hist;
    && Lawful(hist)
    && disk == Current(hist)
    && CheckpointOk(disk)
    && disk.task == Initial(hist).task
    && Initial(hist).attempts <= LastSend(hist) <= disk.attempts
    && (disk.state.StatePending? || disk.state.StateWaitingRetry? ==> OpenSends(hist) == {})
    && (CancelSeen(hist) ==> AfterCancel(disk.state))
    && (disk.state.StateCompleted? ==> Earned(hist, disk.task))
  }

  /** Saving `cp` would be in order. */
  predicate MaySave(delay: int, cell: Cell, caller: Caller, cp: Checkpoint) {
    StoreInv(Cell(cp, Then(cell.hist, Persisted(caller, delay, cp))))
  }

  predicate Due(disk: Checkpoint, now: int) {
    disk.state.StateDelivered? || disk.state.StateDeliveryUncertain? ==> !disk.NotYetDue(now)
  }

  /** A Step past its gate: `cp` is the live checkpoint on disk, stamped with the clock. */
  predicate Working(disk: Checkpoint, cp: Checkpoint, now: int) {
    cp == disk.(lastObserved := now) && !disk.Terminal() && Due(disk, now)
  }

  predicate Marked(cell: Cell, cp: Checkpoint) {
    && cp == cell.disk && CancelSeen(cell.hist)
    && cp.state.StateCancelUnconfirmed? && cp.lastErrorKind.AoStopUnconfirmed?
  }

  predicate BodyInv(delay: int, cell: Cell, body: Body) {
    var disk, hist := cell.disk, cell.hist;
    match body
    case LoadForStep => true
    case LoadForCancel(_) => true
    case Finished(_) => true
    case SaveAndReturn(caller, cp, _) => MaySave(delay, cell, caller, cp)
    case ReadClock(cp) => cp == disk
    case ReadArtifact(cp, now) => Working(disk, cp, now)
    case ObserveDelivery(cp, now) => Working(disk, cp, now) && ArtifactChecked(hist)
    case Recover(cp, now, unconfirmed) =>
      && Working(disk, cp, now)
      && Ready(hist, ByStep, BodyRequest(body))
      && unconfirmed == (if disk.state.StateDeliveryUncertain? then DeliveryNotConfirmed else DeliveryUncertainKind)
    case Preflight(cp, now) =>
      && Working(disk, cp, now)
      && Ready(hist, ByStep, ReqPreflight(disk.task))
      && (cp.state.StatePending? || cp.state.StateWaitingRetry?)
      && !disk.NotYetDue(now)
      && cp.attempts < cp.task.retryBudget
    case WriteAhead(cp, now) =>
      && MaySave(delay, cell, ByStep, cp)
      && cp.state.StateDeliveryUncertain?
      && (disk.state.StatePending? || disk.state.StateWaitingRetry?)
      && !disk.NotYetDue(now)
      && cp.attempts == disk.attempts + 1
      && cp.lastObserved == now
      && hist.Then? && hist.last == Answered(ReqPreflight(cp.task), Ack)
    case IssueSend(cp, now) =>
      && Ready(hist, ByStep, BodyRequest(body))
      && cp == disk && cp.state.StateDeliveryUncertain? && cp.lastObserved == now
      && OpenSends(hist) == {} && LastSend(hist) < cp.attempts
      && !Previous(hist).NotYetDue(now)
    case AwaitSend(cp, now) =>
      && cp == disk && cp.state.StateDeliveryUncertain? && cp.lastObserved == now
      && OpenSends(hist) == {cp.attempts}
      && hist.Then? && hist.last.Called? && hist.last.req.ReqSend? && hist.last.req.attempt == cp.attempts
      && hist.last.at == now
    case MarkCancelled(cp) =>
      MaySave(delay, cell, ByCancel, cp) && cp.state.StateCancelUnconfirmed? && cp.lastErrorKind.AoStopUnconfirmed?
    case CancelRecover(cp) => Marked(cell, cp) && cp.aoTurnID == ""
    case SaveTurn(cp) =>
      MaySave(delay, cell, ByCancel, cp) && cp.state.StateCancelUnconfirmed? && cp.lastErrorKind.AoStopUnconfirmed?
    case CancelObserve(cp) => Marked(cell, cp)
    case StopTurn(cp) => Marked(cell, cp) && Ready(hist, ByCancel, BodyRequest(body))
    case ObserveAfterFailedStop(cp, _) => Marked(cell, cp)
    case ObserveAfterStop(cp) => Marked(cell, cp)
  }

  /** A checkpoint that may follow the one on disk. */
  predicate MayFollow(delay: int, cell: Cell, caller: Caller, cp: Checkpoint) {
    && WriteOk(cell.hist, caller, delay, cp)
    && (CancelSeen(cell.hist) || caller.ByCancel? ==> AfterCancel(cp.state))
  }

  lemma FollowerMayBeSaved(delay: int, cell: Cell, caller: Caller, cp: Checkpoint)
    requires StoreInv(cell) && MayFollow(delay, cell, caller, cp)
    ensures MaySave(delay, cell, caller, cp)
  {
  }

  /** A Step's write: all it has to show once its caller is known. */
  lemma StepMaySave(delay: int, cell: Cell, cp: Checkpoint)
    requires StoreInv(cell) && delay > 0 && !cell.disk.Terminal()
    requires cp.task == cell.disk.task && CheckpointOk(cp)
    requires Edge(ByStep, cell.disk.state, cp.state)
    requires cell.disk.attempts <= cp.attempts <= cell.disk.attempts + 1
    requires cp.nextRetryAt.Some? ==> cp.nextRetryAt.value == cp.lastObserved + delay
    requires cp.state.StateWaitingRetry? ==> OpenSends(cell.hist) == {}
    requires cp.state.StateCompleted? ==> Earned(cell.hist, cp.task)
    requires Explained(cell.hist, ByStep, cp)
    ensures MaySave(delay, cell, ByStep, cp)
  {
    FollowerMayBeSaved(delay, cell, ByStep, cp);
  }

  lemma CallKeepsStore(cell: Cell, caller: Caller, at: int, req: Request)
    requires StoreInv(cell) && CallOk(cell.hist, caller, at) && Ready(cell.hist, caller, req) && !req.ReqSend?
    ensures var h := Then(cell.hist, Called(caller, at, req));
            && StoreInv(cell.(hist := h))
            && OpenSends(h) == OpenSends(cell.hist) && CancelSeen(h) == CancelSeen(cell.hist)
  {
  }

  lemma AnswerKeepsStore(cell: Cell, req: Request, ans: Answer)
    requires StoreInv(cell) && !req.ReqSendReply? && AnswerOk(cell.hist, req, ans)
    ensures var h := Then(cell.hist, Answered(req, ans));
            && StoreInv(cell.(hist := h))
            && OpenSends(h) == OpenSends(cell.hist) && CancelSeen(h) == CancelSeen(cell.hist)
            && (IsEarningObservation(Answered(req, ans), cell.disk.task) ==> Earned(h, cell.disk.task))
  {
  }

  /** The history ends with the answer to a call made at `now`. */
  predicate Heard(hist: History, now: int) {
    hist.Then? && hist.last.Answered? && hist.past.Then? && hist.past.last.Called? && hist.past.last.at == now
  }

  /** An external call that is in order, and its answer, leave the store's invariant alone. */
  lemma ExchangeKeepsStore(delay: int, cell: Cell, body: Body, ans: Answer)
    requires StoreInv(cell) && Fits(BodyRequest(body), ans)
    requires var req := BodyRequest(body);
             req.ReqArtifact? || req.ReqObserve? || req.ReqPreflight? || req.ReqRecoverOnly? || req.ReqStop?
    requires CallOk(cell.hist, CallerOf(body), TimeOf(body)) && Ready(cell.hist, CallerOf(body), BodyRequest(body))
    ensures var after := CellAfter(delay, cell, body, ans);
            && StoreInv(after) && after.disk == cell.disk
            && Told(after.hist, BodyRequest(body), ans) && Heard(after.hist, TimeOf(body))
            && after.hist.past.Then? && after.hist.past.last == Called(CallerOf(body), TimeOf(body), BodyRequest(body))
            && OpenSends(after.hist) == OpenSends(cell.hist)
            && CancelSeen(after.hist) == CancelSeen(cell.hist)
            && (IsEarningObservation(Answered(BodyRequest(body), ans), cell.disk.task)
                ==> Earned(after.hist, cell.disk.task))
  {
    var req := BodyRequest(body);
    CallKeepsStore(cell, CallerOf(body), TimeOf(body), req);
    AnswerKeepsStore(cell.(hist := Then(cell.hist, Called(CallerOf(body), TimeOf(body), req))), req, ans);
  }

  /** `cell` satisfies the invariants together with `body`. */
  predicate Consistent(delay: int, cell: Cell, body: Body) {
    delay > 0 && StoreInv(cell) && BodyInv(delay, cell, body)
  }

  /** The invariants survive the answer `ans`. */
  predicate Kept(delay: int, cell: Cell, body: Body, ans: Answer)
    requires Fits(BodyRequest(body), ans)
  {
    Consistent(delay, CellAfter(delay, cell, body, ans), BodyResume(delay, body, ans))
  }

  lemma BlockInOrder(delay: int, cell: Cell, cp: Checkpoint, kind: ErrorKind, cause: Error)
    requires StoreInv(cell) && delay > 0 && !cell.disk.Terminal()
    requires cp.task == cell.disk.task && cp.sideEffect.SideEffectPending?
    requires cell.disk.attempts <= cp.attempts <= cell.disk.attempts + 1
    requires Explained(cell.hist, ByStep, Blocked(cp, kind))
    ensures BodyInv(delay, cell, Block(cp, kind, cause))
  {
    StepMaySave(delay, cell, Blocked(cp, kind));
  }

  lemma LoadStep(delay: int, cell: Cell, body: Body, ans: Answer)
    requires Consistent(delay, cell, body) && Honest(cell.disk, BodyRequest(body), ans)
    requires body.LoadForStep? || body.LoadForCancel?
    ensures Kept(delay, cell, body, ans)
  {
    if body.LoadForCancel? && ans.Loaded? {
      var after := BeginCancel(ans.cp, body.now);
      if after.SaveAndReturn? || after.MarkCancelled? {
        FollowerMayBeSaved(delay, cell, ByCancel, after.cp);
      }
    }
  }

  /** A save that is in order, replaced or not. */
  lemma SaveKeepsStore(delay: int, cell: Cell, body: Body, cp: Checkpoint, ans: Answer)
    requires StoreInv(cell) && BodyRequest(body) == ReqSave(cp) && MaySave(delay, cell, CallerOf(body), cp)
    requires Fits(ReqSave(cp), ans)
    ensures var after := CellAfter(delay, cell, body, ans);
            && StoreInv(after)
            && after == if Replaces(ans) then Cell(cp, Then(cell.hist, Persisted(CallerOf(body), delay, cp))) else cell
  {
    hide StoreInv;
  }

  lemma SaveStep(delay: int, cell: Cell, body: Body, ans: Answer)
    requires Consistent(delay, cell, body) && Honest(cell.disk, BodyRequest(body), ans)
    requires body.SaveAndReturn? || body.MarkCancelled? || body.SaveTurn?
    ensures Kept(delay, cell, body, ans)
  {
    hide StoreInv, CellAfter;
    SaveKeepsStore(delay, cell, body, body.cp, ans);
  }

  lemma ClockStep(delay: int, cell: Cell, body: Body, ans: Answer)
    requires Consistent(delay, cell, body) && Honest(cell.disk, BodyRequest(body), ans)
    requires body.ReadClock?
    ensures Kept(delay, cell, body, ans)
  {
    var cp := body.cp.(lastObserved := ans.now);
    if cp.Terminal() {
      FollowerMayBeSaved(delay, cell, ByStep, cp);
    }
  }

  lemma ArtifactStep(delay: int, cell: Cell, body: Body, ans: Answer)
    requires Consistent(delay, cell, body) && Honest(cell.disk, BodyRequest(body), ans)
    requires body.ReadArtifact?
    ensures Kept(delay, cell, body, ans)
  {
    ExchangeKeepsStore(delay, cell, body, ans);
    var next := BodyResume(delay, body, ans);
    if next.SaveAndReturn? {
      BlockInOrder(delay, CellAfter(delay, cell, body, ans), body.cp, next.cp.lastErrorKind, next.err.value);
    }
  }

  lemma ReconciliationInOrder(delay: int, cell: Cell, cp: Checkpoint, now: int, req: Request, cause: Error)
    requires StoreInv(cell) && delay > 0 && !cell.disk.Terminal() && Working(cell.disk, cp, now)
    requires Told(cell.hist, req, Failed(cause)) && req.ReqObserve? && Heard(cell.hist, now)
    requires cell.disk.state.StateDelivered? || cell.disk.state.StateDeliveryUncertain?
    ensures BodyInv(delay, cell, ScheduleReconciliation(delay, cp.(attempts := cp.attempts + 1), now, AoObserveFailed,
                                                        cause))
  {
    var tried := cp.(attempts := cp.attempts + 1);
    if tried.attempts >= cp.task.retryBudget {
      BlockInOrder(delay, cell, tried, RetryBudgetExhausted, cause);
    } else {
      StepMaySave(delay, cell, tried.(nextRetryAt := Some(now + delay), lastErrorKind := AoObserveFailed));
    }
  }

  /** A Send may be retried after a probe that failed, which costs an attempt, and after a definite
      refusal, whose attempt is already on disk. */
  lemma SendRetryInOrder(delay: int, cell: Cell, tried: Checkpoint, now: int, req: Request, kind: ErrorKind,
                         cause: Error)
    requires StoreInv(cell) && delay > 0 && !cell.disk.Terminal()
    requires Told(cell.hist, req, Failed(cause)) && OpenSends(cell.hist) == {} && Heard(cell.hist, now)
    requires tried == cell.disk.(lastObserved := now, attempts := tried.attempts)
    requires if req.ReqObserve?
             then kind.AoObserveFailed? && tried.attempts == cell.disk.attempts + 1
                  && (cell.disk.state.StatePending? || cell.disk.state.StateWaitingRetry?)
             else req.ReqSendReply? && kind.RequestNotAccepted? && cause.ErrRequestNotAccepted?
                  && tried.attempts == cell.disk.attempts && cell.disk.state.StateDeliveryUncertain?
    ensures BodyInv(delay, cell, ScheduleSendRetry(delay, tried, now, kind, cause))
  {
    if tried.attempts >= tried.task.retryBudget {
      BlockInOrder(delay, cell, tried, RetryBudgetExhausted, cause);
    } else {
      StepMaySave(delay, cell, tried.(state := StateWaitingRetry, nextRetryAt := Some(now + delay),
                                      lastErrorKind := kind));
    }
  }

  lemma ReconcileInOrder(delay: int, cell: Cell, cp: Checkpoint, now: int, req: Request, ans: Answer, kind: ErrorKind,
                         cause: Error, count: bool)
    requires StoreInv(cell) && delay > 0 && !cell.disk.Terminal()
    requires cp == cell.disk.(lastObserved := now)
    requires Told(cell.hist, req, ans) && (ans.Failed? || ans.Receipt?) && !Confirms(ans) && Heard(cell.hist, now)
    requires ans != Failed(ErrSessionContaminated)
    requires if count then req.ReqRecoverOnly? else req.ReqSendReply? && ans.Failed? && !ans.err.ErrRequestNotAccepted?
    requires kind == if req.ReqRecoverOnly? && ans.Receipt? && cell.disk.state.StateDeliveryUncertain?
                     then DeliveryNotConfirmed else DeliveryUncertainKind
    ensures BodyInv(delay, cell, ReconcileLater(delay, cp, now, kind, cause, count))
  {
    var tried := if count then cp.(attempts := cp.attempts + 1) else cp;
    if tried.attempts >= cp.task.retryBudget {
      BlockInOrder(delay, cell, tried, RetryBudgetExhausted, cause);
    } else {
      StepMaySave(delay, cell, tried.(state := StateDeliveryUncertain, nextRetryAt := Some(now + delay),
                                      lastErrorKind := kind));
    }
  }

  lemma DecideInOrder(delay: int, cell: Cell, cp: Checkpoint, now: int, obs: Observation)
    requires StoreInv(cell) && delay > 0 && Working(cell.disk, cp, now)
    requires !cp.state.StateDeliveryUncertain?
    requires cp.state.StateDelivered? ==> !obs.delivery.DeliveryNotFound?
    requires Earns(obs, cp.task) ==> Earned(cell.hist, cp.task)
    requires SessionUp(cell.hist) && cell.hist.last.ans == Observed(obs) && Heard(cell.hist, now)
    ensures BodyInv(delay, cell, Decide(cp, now, obs))
  {
    var next := Decide(cp, now, obs);
    if next.SaveAndReturn? {
      StepMaySave(delay, cell, next.cp);
    }
  }

  lemma ObserveStep(delay: int, cell: Cell, body: Body, ans: Answer)
    requires Consistent(delay, cell, body) && Honest(cell.disk, BodyRequest(body), ans)
    requires body.ObserveDelivery?
    ensures Kept(delay, cell, body, ans)
  {
    ExchangeKeepsStore(delay, cell, body, ans);
    var after := CellAfter(delay, cell, body, ans);
    match ans
    case Failed(err) => FailedProbeInOrder(delay, after, body.cp, body.now, BodyRequest(body), err);
    case Observed(obs) => ObservationInOrder(delay, after, body.cp, body.now, BodyRequest(body), obs);
  }

  lemma FailedProbeInOrder(delay: int, cell: Cell, cp: Checkpoint, now: int, req: Request, err: Error)
    requires StoreInv(cell) && delay > 0 && Working(cell.disk, cp, now)
    requires Told(cell.hist, req, Failed(err)) && req.ReqObserve? && Heard(cell.hist, now)
    ensures BodyInv(delay, cell, AfterObserve(delay, cp, now, Failed(err)))
  {
    hide BodyInv;
    if cp.state.StateDelivered? || cp.state.StateDeliveryUncertain? {
      ReconciliationInOrder(delay, cell, cp, now, req, err);
    } else {
      SendRetryInOrder(delay, cell, cp.(attempts := cp.attempts + 1), now, req, AoObserveFailed, err);
    }
  }

  lemma ObservationInOrder(delay: int, cell: Cell, cp: Checkpoint, now: int, req: Request, obs: Observation)
    requires StoreInv(cell) && delay > 0 && Working(cell.disk, cp, now)
    requires Earns(obs, cp.task) ==> Earned(cell.hist, cp.task)
    requires Told(cell.hist, req, Observed(obs)) && req.ReqObserve? && Heard(cell.hist, now)
    requires cell.hist.past.Then? && cell.hist.past.last.Called? && cell.hist.past.last.caller.ByStep?
    ensures BodyInv(delay, cell, AfterObserve(delay, cp, now, Observed(obs)))
  {
    if !obs.sessionExists {
      BlockInOrder(delay, cell, cp, SessionNotFound, ErrRefused(SessionNotFound));
    } else if obs.humanStopped {
      StepMaySave(delay, cell, HumanStopped(cp));
    } else if cp.state.StateDeliveryUncertain? {
    } else if cp.state.StateDelivered? && obs.delivery.DeliveryNotFound? {
      BlockInOrder(delay, cell, cp, DeliveryReceiptLost, ErrRefused(DeliveryReceiptLost));
    } else {
      hide BodyInv;
      DecideInOrder(delay, cell, cp, now, obs);
    }
  }

  lemma RecoverStep(delay: int, cell: Cell, body: Body, ans: Answer)
    requires Consistent(delay, cell, body) && Honest(cell.disk, BodyRequest(body), ans)
    requires body.Recover?
    ensures Kept(delay, cell, body, ans)
  {
    ExchangeKeepsStore(delay, cell, body, ans);
    var after := CellAfter(delay, cell, body, ans);
    var cp, now, req := body.cp, body.now, BodyRequest(body);
    if ans.Failed? {
      if ans.err.ErrSessionContaminated? {
        BlockInOrder(delay, after, cp, SessionContaminated, ans.err);
      } else {
        ReconcileInOrder(delay, after, cp, now, req, ans, DeliveryUncertainKind, ans.err, true);
      }
    } else if Confirms(ans) {
      StepMaySave(delay, after, DeliveredAs(cp, ans.receipt.turnID));
    } else {
      ReconcileInOrder(delay, after, cp, now, req, ans, body.unconfirmed, ErrDeliveryUncertain, true);
    }
  }

  lemma PreflightStep(delay: int, cell: Cell, body: Body, ans: Answer)
    requires Consistent(delay, cell, body) && Honest(cell.disk, BodyRequest(body), ans)
    requires body.Preflight?
    ensures Kept(delay, cell, body, ans)
  {
    ExchangeKeepsStore(delay, cell, body, ans);
    var after := CellAfter(delay, cell, body, ans);
    if ans.Failed? {
      BlockInOrder(delay, after, body.cp, SessionPreflightFailed, ans.err);
    } else {
      StepMaySave(delay, after, InFlight(body.cp, body.now + delay));
    }
  }

  lemma WriteAheadStep(delay: int, cell: Cell, body: Body, ans: Answer)
    requires Consistent(delay, cell, body) && Honest(cell.disk, BodyRequest(body), ans)
    requires body.WriteAhead?
    ensures Kept(delay, cell, body, ans)
  {
  }

  lemma SendStep(delay: int, cell: Cell, body: Body, ans: Answer)
    requires Consistent(delay, cell, body) && Honest(cell.disk, BodyRequest(body), ans)
    requires body.IssueSend?
    ensures Kept(delay, cell, body, ans)
  {
    assert SendOk(cell.hist, ByStep, body.now, body.cp.attempts);
  }

  /** The reply settles the Send in flight exactly when it is a definite refusal. */
  lemma ReplyStep(delay: int, cell: Cell, body: Body, ans: Answer)
    requires Consistent(delay, cell, body) && Honest(cell.disk, BodyRequest(body), ans)
    requires body.AwaitSend?
    ensures Kept(delay, cell, body, ans)
  {
    var after := CellAfter(delay, cell, body, ans);
    var cp, now := body.cp, body.now;
    assert StoreInv(after);
    if ans.Failed? {
      if ans.err.ErrSessionContaminated? {
        BlockInOrder(delay, after, cp, SessionContaminated, ans.err);
      } else if ans.err.ErrRequestNotAccepted? {
        SendRetryInOrder(delay, after, cp, now, BodyRequest(body), RequestNotAccepted, ans.err);
      } else {
        ReconcileInOrder(delay, after, cp, now, BodyRequest(body), ans, DeliveryUncertainKind, ans.err, false);
      }
    } else {
      StepMaySave(delay, after, DeliveredAs(cp, ans.receipt.turnID));
    }
  }

  lemma SettleInOrder(delay: int, cell: Cell, cp: Checkpoint, obs: Observation)
    requires StoreInv(cell) && delay > 0 && Marked(cell, cp) && Settles(obs)
    requires Earns(obs, cp.task) ==> Earned(cell.hist, cp.task)
    requires JustObserved(cell.hist) && cell.hist.last.ans == Observed(obs)
    ensures BodyInv(delay, cell, Settle(cp, obs))
  {
    FollowerMayBeSaved(delay, cell, ByCancel, Settle(cp, obs).cp);
  }

  lemma CancelRecoverStep(delay: int, cell: Cell, body: Body, ans: Answer)
    requires Consistent(delay, cell, body) && Honest(cell.disk, BodyRequest(body), ans)
    requires body.CancelRecover?
    ensures Kept(delay, cell, body, ans)
  {
    ExchangeKeepsStore(delay, cell, body, ans);
    var next := BodyResume(delay, body, ans);
    if next.SaveTurn? {
      FollowerMayBeSaved(delay, CellAfter(delay, cell, body, ans), ByCancel, next.cp);
    }
  }

  lemma CancelStep(delay: int, cell: Cell, body: Body, ans: Answer)
    requires Consistent(delay, cell, body) && Honest(cell.disk, BodyRequest(body), ans)
    requires body.CancelObserve? || body.StopTurn? || body.ObserveAfterFailedStop? || body.ObserveAfterStop?
    ensures Kept(delay, cell, body, ans)
  {
    ExchangeKeepsStore(delay, cell, body, ans);
    hide StoreInv;
    if BodyResume(delay, body, ans).SaveAndReturn? {
      SettleInOrder(delay, CellAfter(delay, cell, body, ans), body.cp, ans.obs);
    }
  }

  /** Every answer to every request keeps the invariants. */
  lemma BodyStep(delay: int, cell: Cell, body: Body, ans: Answer)
    requires Consistent(delay, cell, body) && Honest(cell.disk, BodyRequest(body), ans)
    ensures Kept(delay, cell, body, ans)
  {
    hide Consistent, Kept, DiskAfter, HistAfter, BodyResume;
    if body.LoadForStep? || body.LoadForCancel? {
      LoadStep(delay, cell, body, ans);
    } else if body.SaveAndReturn? || body.MarkCancelled? || body.SaveTurn? {
      SaveStep(delay, cell, body, ans);
    } else if body.ReadClock? {
      ClockStep(delay, cell, body, ans);
    } else if body.ReadArtifact? {
      ArtifactStep(delay, cell, body, ans);
    } else if body.ObserveDelivery? {
      ObserveStep(delay, cell, body, ans);
    } else if body.Recover? {
      RecoverStep(delay, cell, body, ans);
    } else if body.Preflight? {
      PreflightStep(delay, cell, body, ans);
    } else if body.WriteAhead? {
      WriteAheadStep(delay, cell, body, ans);
    } else if body.IssueSend? {
      SendStep(delay, cell, body, ans);
    } else if body.AwaitSend? {
      ReplyStep(delay, cell, body, ans);
    } else if body.CancelRecover? {
      CancelRecoverStep(delay, cell, body, ans);
    } else {
      CancelStep(delay, cell, body, ans);
    }
  }

  /** A call that is about to leave is in order, answered or not. */
  lemma PendingCall(delay: int, cell: Cell, body: Body)
    requires Consistent(delay, cell, body) && IsCall(BodyRequest(body))
    ensures StoreInv(cell.(hist := Asked(cell.hist, body)))
    ensures EventOk(cell.hist, Called(CallerOf(body), TimeOf(body), BodyRequest(body)))
  {
    if body.IssueSend? {
      assert SendOk(cell.hist, ByStep, body.now, body.cp.attempts);
    } else {
      CallKeepsStore(cell, CallerOf(body), TimeOf(body), BodyRequest(body));
    }
  }
}
