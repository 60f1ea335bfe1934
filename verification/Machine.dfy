/** One call of Step or Cancel as an automaton over its I/O (internal/recovery/dispatcher.go,
    internal/recovery/lease.go). A program point holds what the code still needs, names the next
    request it makes, and resumes on the answer. A crash is a program point that never resumes,
    so every I/O boundary of the code is a place where a run can stop. */
module DispatcherMachine {
  import opened CheckpointModel

  datatype Call = StepCall | CancelCall(now: int)

  datatype Caller = ByStep | ByCancel

  datatype Request =
    | ReqLoad
    | ReqSave(cp: Checkpoint)
    | ReqNow
    | ReqArtifact(path: string)
    | ReqObserve(sessionID: string, turnID: string)
    | ReqPreflight(task: Task)
    | ReqSend(sessionID: string, deliveryID: string, action: string, attempt: int)  // the request leaves
    | ReqSendReply(attempt: int)  // its outcome arrives
    | ReqRecoverOnly(sessionID: string, deliveryID: string)
    | ReqStop(sessionID: string, turnID: string)
    | ReqCreateLease(name: string)
    | ReqWriteLease(name: string, record: LeaseRecord)
    | ReqReadLease(name: string)
    | ReqRemoveLease(name: string)
    | ReqNothing

  datatype Answer =
    | Ack
    | Failed(err: Error)
    | SaveFailed(replaced: bool, err: Error)
    | Loaded(cp: Checkpoint)
    | Time(now: int)
    | ArtifactSeen(artifact: ArtifactObservation)
    | Observed(obs: Observation)
    | Receipt(receipt: DeliveryReceipt)
    | LeaseExists
    | LeaseContent(content: Option<LeaseRecord>)

  /** The answers a request can get; nothing else is assumed of AO or of the artifact reader. */
  predicate Fits(req: Request, ans: Answer) {
    match req
    case ReqLoad => ans.Loaded? || ans.Failed?
    case ReqSave(_) => ans.Ack? || ans.SaveFailed?
    case ReqNow => ans.Time?
    case ReqArtifact(_) => ans.ArtifactSeen? || ans.Failed?
    case ReqObserve(_, _) => ans.Observed? || ans.Failed?
    case ReqPreflight(_) => ans.Ack? || ans.Failed?
    case ReqSend(_, _, _, _) => ans.Ack?
    case ReqSendReply(_) => ans.Receipt? || ans.Failed?
    case ReqRecoverOnly(_, _) => ans.Receipt? || ans.Failed?
    case ReqStop(_, _) => ans.Ack? || ans.Failed?
    case ReqCreateLease(_) => ans.Ack? || ans.LeaseExists? || ans.Failed?
    case ReqWriteLease(_, _) => ans.Ack? || ans.Failed?
    case ReqReadLease(_) => ans.LeaseContent? || ans.Failed?
    case ReqRemoveLease(_) => ans.Ack? || ans.Failed?
    case ReqNothing => false
  }

  /** Program points between the acquisition and the release of the lease. */
  datatype Body =
    | LoadForStep
    | LoadForCancel(now: int)
    | Finished(out: Outcome)
    | SaveAndReturn(caller: Caller, cp: Checkpoint, err: Option<Error>)
    // Step
    | ReadClock(cp: Checkpoint)
    | ReadArtifact(cp: Checkpoint, now: int)
    | ObserveDelivery(cp: Checkpoint, now: int)
    | Recover(cp: Checkpoint, now: int, unconfirmed: ErrorKind)
    | Preflight(cp: Checkpoint, now: int)
    | WriteAhead(cp: Checkpoint, now: int)
    | IssueSend(cp: Checkpoint, now: int)
    | AwaitSend(cp: Checkpoint, now: int)
    // Cancel
    | MarkCancelled(cp: Checkpoint)
    | CancelRecover(cp: Checkpoint)
    | SaveTurn(cp: Checkpoint)
    | CancelObserve(cp: Checkpoint)
    | StopTurn(cp: Checkpoint)
    | ObserveAfterFailedStop(cp: Checkpoint, cause: Error)
    | ObserveAfterStop(cp: Checkpoint)

  function Return(cp: Checkpoint, err: Option<Error>): Body {
    Finished(Outcome(Some(cp), err))
  }

  function BodyRequest(body: Body): Request {
    match body
    case LoadForStep => ReqLoad
    case LoadForCancel(_) => ReqLoad
    case Finished(_) => ReqNothing
    case SaveAndReturn(_, cp, _) => ReqSave(cp)
    case ReadClock(_) => ReqNow
    case ReadArtifact(cp, _) => ReqArtifact(cp.task.artifactPath)
    case ObserveDelivery(cp, _) => ReqObserve(cp.task.sessionID, cp.aoTurnID)
    case Recover(cp, _, _) => ReqRecoverOnly(cp.task.sessionID, cp.task.deliveryID)
    case Preflight(cp, _) => ReqPreflight(cp.task)
    case WriteAhead(cp, _) => ReqSave(cp)
    case IssueSend(cp, _) => ReqSend(cp.task.sessionID, cp.task.deliveryID, cp.task.nextAction, cp.attempts)
    case AwaitSend(cp, _) => ReqSendReply(cp.attempts)
    case MarkCancelled(cp) => ReqSave(cp)
    case CancelRecover(cp) => ReqRecoverOnly(cp.task.sessionID, cp.task.deliveryID)
    case SaveTurn(cp) => ReqSave(cp)
    case CancelObserve(cp) => ReqObserve(cp.task.sessionID, cp.aoTurnID)
    case StopTurn(cp) => ReqStop(cp.task.sessionID, cp.aoTurnID)
    case ObserveAfterFailedStop(cp, _) => ReqObserve(cp.task.sessionID, cp.aoTurnID)
    case ObserveAfterStop(cp) => ReqObserve(cp.task.sessionID, cp.aoTurnID)
  }

  function BodyResume(delay: int, body: Body, ans: Answer): Body
    requires Fits(BodyRequest(body), ans)
  {
    match body
    case LoadForStep =>
      if ans.Failed? then Finished(Outcome(None, Some(ans.err))) else ReadClock(ans.cp)
    case LoadForCancel(now) =>
      if ans.Failed? then Finished(Outcome(None, Some(ans.err))) else BeginCancel(ans.cp, now)
    case SaveAndReturn(_, cp, err) =>
      Return(cp, if ans.SaveFailed? then Some(ans.err) else err)
    case ReadClock(cp) => BeginStep(cp.(lastObserved := ans.now), ans.now)
    case ReadArtifact(cp, now) => AfterArtifact(cp, now, ans)
    case ObserveDelivery(cp, now) => AfterObserve(delay, cp, now, ans)
    case Recover(cp, now, unconfirmed) => AfterRecover(delay, cp, now, unconfirmed, ans)
    case Preflight(cp, now) =>
      if ans.Failed? then Block(cp, SessionPreflightFailed, ans.err)
      else WriteAhead(InFlight(cp, now + delay), now)
    case WriteAhead(cp, now) =>
      if ans.SaveFailed? then Return(cp, Some(ans.err)) else IssueSend(cp, now)
    case IssueSend(cp, now) => AwaitSend(cp, now)
    case AwaitSend(cp, now) => AfterSend(delay, cp, now, ans)
    case MarkCancelled(cp) =>
      if ans.SaveFailed? then Return(cp, Some(ans.err))
      else if cp.aoTurnID == "" then CancelRecover(cp)
      else CancelObserve(cp)
    case CancelRecover(cp) => AfterCancelRecover(cp, ans)
    case SaveTurn(cp) =>
      if ans.SaveFailed? then Return(cp, Some(ans.err)) else CancelObserve(cp)
    case CancelObserve(cp) => AfterCancelObserve(cp, ans)
    case StopTurn(cp) =>
      if ans.Failed? then ObserveAfterFailedStop(cp, ans.err) else ObserveAfterStop(cp)
    case ObserveAfterFailedStop(cp, err) =>
      if ans.Observed? && Settles(ans.obs) then Settle(cp, ans.obs) else Return(cp, Some(err))
    case ObserveAfterStop(cp) =>
      if ans.Failed? then Return(cp, Some(ans.err))
      else if Settles(ans.obs) then Settle(cp, ans.obs)
      else Return(cp, Some(ErrDeliveryUncertain))
  }

  // ----- Step -----

  function BeginStep(cp: Checkpoint, now: int): Body {
    if cp.Terminal() then
      SaveAndReturn(ByStep, cp, None)
    else if (cp.state.StateDeliveryUncertain? || cp.state.StateDelivered?) && cp.NotYetDue(now) then
      Return(cp, None)
    else
      ReadArtifact(cp, now)
  }

  function AfterArtifact(cp: Checkpoint, now: int, ans: Answer): Body
    requires ans.ArtifactSeen? || ans.Failed?
  {
    match ans
    case Failed(err) => Block(cp, ArtifactReadFailed, err)
    case ArtifactSeen(artifact) =>
      if artifact.sha256 != cp.task.artifactSHA256 then
        Block(cp, ArtifactChanged, ErrRefused(ArtifactChanged))
      else if artifact.gitHead != cp.task.gitHead then
        Block(cp, GitHeadChanged, ErrRefused(GitHeadChanged))
      else if cp.task.sessionBranch != "" && artifact.branch != cp.task.sessionBranch then
        Block(cp, WorktreeBranchMismatch, ErrRefused(WorktreeBranchMismatch))
      else
        ObserveDelivery(cp, now)
  }

  function AfterObserve(delay: int, cp: Checkpoint, now: int, ans: Answer): Body
    requires ans.Observed? || ans.Failed?
  {
    match ans
    case Failed(err) =>
      var tried := cp.(attempts := cp.attempts + 1);
      if cp.state.StateDelivered? || cp.state.StateDeliveryUncertain? then
        ScheduleReconciliation(delay, tried, now, AoObserveFailed, err)
      else
        ScheduleSendRetry(delay, tried, now, AoObserveFailed, err)
    case Observed(obs) =>
      if !obs.sessionExists then Block(cp, SessionNotFound, ErrRefused(SessionNotFound))
      else if obs.humanStopped then SaveAndReturn(ByStep, HumanStopped(cp), None)
      else if cp.state.StateDeliveryUncertain? then Recover(cp, now, DeliveryNotConfirmed)
      else if cp.state.StateDelivered? && obs.delivery.DeliveryNotFound? then
        Block(cp, DeliveryReceiptLost, ErrRefused(DeliveryReceiptLost))
      else Decide(cp, now, obs)
  }

  function Decide(cp: Checkpoint, now: int, obs: Observation): Body {
    match obs.delivery
    case DeliveryCompleted => AcceptReceipt(ByStep, cp, obs.receipt)
    case DeliveryAccepted =>
      SaveAndReturn(ByStep, cp.(state := StateDelivered, nextRetryAt := None, lastErrorKind := NoError), None)
    case DeliveryReserved => Recover(cp, now, DeliveryUncertainKind)
    case DeliveryRejected => Block(cp, DeliveryRejectedKind, ErrRefused(DeliveryRejectedKind))
    case DeliveryStopped => SaveAndReturn(ByStep, HumanStopped(cp), None)
    case DeliveryNotFound =>
      if cp.state.StateWaitingRetry? && cp.NotYetDue(now) then Return(cp, None)
      else if cp.attempts >= cp.task.retryBudget then
        Block(cp, RetryBudgetExhausted, ErrRefused(RetryBudgetExhausted))
      else Preflight(cp, now)
    case DeliveryOther => Block(cp, UnknownDeliveryState, ErrRefused(UnknownDeliveryState))
  }

  function AfterRecover(delay: int, cp: Checkpoint, now: int, unconfirmed: ErrorKind, ans: Answer): Body
    requires ans.Receipt? || ans.Failed?
  {
    match ans
    case Failed(err) =>
      if err.ErrSessionContaminated? then Block(cp, SessionContaminated, err)
      else ReconcileLater(delay, cp, now, DeliveryUncertainKind, err, true)
    case Receipt(receipt) =>
      if receipt.state.DeliveryAccepted? || receipt.state.DeliveryCompleted? then
        SaveAndReturn(ByStep, DeliveredAs(cp, receipt.turnID), None)
      else
        ReconcileLater(delay, cp, now, unconfirmed, ErrDeliveryUncertain, true)
  }

  function AfterSend(delay: int, cp: Checkpoint, now: int, ans: Answer): Body
    requires ans.Receipt? || ans.Failed?
  {
    match ans
    case Failed(err) =>
      if err.ErrSessionContaminated? then Block(cp, SessionContaminated, err)
      else if err.ErrRequestNotAccepted? then ScheduleSendRetry(delay, cp, now, RequestNotAccepted, err)
      else ReconcileLater(delay, cp, now, DeliveryUncertainKind, err, false)
    case Receipt(receipt) =>
      SaveAndReturn(ByStep, DeliveredAs(cp, receipt.turnID), None)
  }

  function HumanStopped(cp: Checkpoint): Checkpoint {
    cp.(state := StateCancelled, nextRetryAt := None, lastErrorKind := HumanStop)
  }

  function DeliveredAs(cp: Checkpoint, turnID: string): Checkpoint {
    cp.(state := StateDelivered, aoTurnID := turnID, nextRetryAt := None, lastErrorKind := NoError)
  }

  /** The write-ahead record of a Send. */
  function InFlight(cp: Checkpoint, next: int): Checkpoint {
    cp.(attempts := cp.attempts + 1, state := StateDeliveryUncertain, nextRetryAt := Some(next),
        lastErrorKind := SendInFlight)
  }

  function Block(cp: Checkpoint, kind: ErrorKind, cause: Error): Body {
    SaveAndReturn(ByStep, Blocked(cp, kind), Some(cause))
  }

  function Blocked(cp: Checkpoint, kind: ErrorKind): Checkpoint {
    cp.(state := StateBlocked, nextRetryAt := None, lastErrorKind := kind)
  }

  /** Keeps DELIVERED apart from DELIVERY_UNCERTAIN. */
  function ScheduleReconciliation(delay: int, cp: Checkpoint, now: int, kind: ErrorKind, cause: Error): Body {
    if cp.attempts >= cp.task.retryBudget then Block(cp, RetryBudgetExhausted, cause)
    else SaveAndReturn(ByStep, cp.(nextRetryAt := Some(now + delay), lastErrorKind := kind), Some(cause))
  }

  function ScheduleSendRetry(delay: int, cp: Checkpoint, now: int, kind: ErrorKind, cause: Error): Body {
    if cp.attempts >= cp.task.retryBudget then Block(cp, RetryBudgetExhausted, cause)
    else SaveAndReturn(ByStep, cp.(state := StateWaitingRetry, nextRetryAt := Some(now + delay),
                                   lastErrorKind := kind), Some(cause))
  }

  function ReconcileLater(delay: int, cp: Checkpoint, now: int, kind: ErrorKind, cause: Error,
                          countAttempt: bool): Body {
    var cp := if countAttempt then cp.(attempts := cp.attempts + 1) else cp;
    if cp.attempts >= cp.task.retryBudget then Block(cp, RetryBudgetExhausted, cause)
    else SaveAndReturn(ByStep, cp.(state := StateDeliveryUncertain, nextRetryAt := Some(now + delay),
                                   lastErrorKind := kind), Some(cause))
  }

  function AcceptReceipt(caller: Caller, cp: Checkpoint, receipt: Option<TaskReceipt>): Body {
    match receipt
    case None => SaveAndReturn(caller, Blocked(cp, TaskReceiptMissing), Some(ErrRefused(TaskReceiptMissing)))
    case Some(r) =>
      if !Satisfies(r, cp.task) then
        SaveAndReturn(caller, Blocked(cp, TaskOracleFailed), Some(ErrRefused(TaskOracleFailed)))
      else
        SaveAndReturn(caller, cp.(state := StateCompleted, sideEffect := SideEffectCompleted,
                              nextRetryAt := None, lastErrorKind := NoError), None)
  }

  // ----- Cancel -----

  function BeginCancel(cp: Checkpoint, now: int): Body {
    if cp.state.StateCompleted? || cp.state.StateBlocked? || cp.state.StateCancelled? then
      Return(cp, None)
    else if cp.aoTurnID == "" && (cp.state.StatePending? || cp.state.StateWaitingRetry?) then
      SaveAndReturn(ByCancel, HumanStopped(cp).(lastObserved := now), None)
    else
      MarkCancelled(cp.(state := StateCancelUnconfirmed, nextRetryAt := None,
                        lastErrorKind := AoStopUnconfirmed, lastObserved := now))
  }

  function AfterCancelRecover(cp: Checkpoint, ans: Answer): Body
    requires ans.Receipt? || ans.Failed?
  {
    match ans
    case Failed(err) => Return(cp, Some(err))
    case Receipt(receipt) =>
      if receipt.turnID == "" || !(receipt.state.DeliveryAccepted? || receipt.state.DeliveryCompleted?
                                   || receipt.state.DeliveryStopped? || receipt.state.DeliveryRejected?) then
        Return(cp, Some(ErrDeliveryUncertain))
      else
        SaveTurn(cp.(aoTurnID := receipt.turnID))
  }

  function AfterCancelObserve(cp: Checkpoint, ans: Answer): Body
    requires ans.Observed? || ans.Failed?
  {
    if ans.Failed? then Return(cp, Some(ans.err))
    else if Settles(ans.obs) then Settle(cp, ans.obs)
    else if !cp.task.sessionExclusive || cp.task.runOwner == "" then
      Return(cp, Some(ErrSessionOwnerMismatch))
    else StopTurn(cp)
  }

  /** The observation decides the outcome of a Cancel. */
  predicate Settles(obs: Observation) {
    && obs.sessionExists
    && (obs.delivery.DeliveryStopped? || obs.delivery.DeliveryCompleted? || obs.delivery.DeliveryRejected?)
  }

  function Settle(cp: Checkpoint, obs: Observation): Body
    requires Settles(obs)
  {
    match obs.delivery
    case DeliveryStopped =>
      SaveAndReturn(ByCancel, cp.(state := StateCancelled, lastErrorKind := HumanStop), None)
    case DeliveryCompleted =>
      if obs.receipt.Some? && Satisfies(obs.receipt.value, cp.task) then
        AcceptReceipt(ByCancel, cp, obs.receipt)
      else
        SaveAndReturn(ByCancel, cp.(state := StateCancelUnconfirmed, sideEffect := SideEffectPending,
                                    lastErrorKind := CompletedOutcomeUnverified), None)
    case DeliveryRejected =>
      SaveAndReturn(ByCancel, cp.(state := StateBlocked, lastErrorKind := DeliveryFailed), None)
  }

  // ----- a whole call, from the unlocked load to the release of the lease -----

  const MINUTE := 60_000_000_000

  /** A dispatcher's settings; `leased` is whether it has a Lease at all. */
  datatype Config = Config(leased: bool, ownerID: string, pid: nat, retryDelay: int)
  {
    function Delay(): (d: int)
      ensures d > 0
    {
      if retryDelay > 0 then retryDelay else MINUTE
    }

    function Record(key: LeaseKey): LeaseRecord {
      LeaseRecord(ownerID, key.taskID, pid)
    }
  }

  datatype Phase =
    | Returned(out: Outcome)
    | AcquireLoad(call: Call)
    | AcquireCreate(call: Call, key: LeaseKey)
    | AcquireWrite(call: Call, key: LeaseKey)
    | AcquireUndo(key: LeaseKey, err: Error)
    | Running(lease: Option<LeaseKey>, body: Body)
    | ReleaseRead(key: LeaseKey, out: Outcome)
    | ReleaseRemove(key: LeaseKey, out: Outcome)
    | Crashed

  function Invoke(cfg: Config, call: Call): Phase {
    if cfg.leased then AcquireLoad(call) else Running(None, Start(call))
  }

  function Start(call: Call): Body {
    match call
    case StepCall => LoadForStep
    case CancelCall(now) => LoadForCancel(now)
  }

  function PhaseRequest(cfg: Config, phase: Phase): Request {
    match phase
    case Returned(_) => ReqNothing
    case AcquireLoad(_) => ReqLoad
    case AcquireCreate(_, key) => ReqCreateLease(key.Name())
    case AcquireWrite(_, key) => ReqWriteLease(key.Name(), cfg.Record(key))
    case AcquireUndo(key, _) => ReqRemoveLease(key.Name())
    case Running(_, body) => BodyRequest(body)
    case ReleaseRead(key, _) => ReqReadLease(key.Name())
    case ReleaseRemove(key, _) => ReqRemoveLease(key.Name())
    case Crashed => ReqNothing
  }

  function PhaseResume(cfg: Config, phase: Phase, ans: Answer): Phase
    requires Fits(PhaseRequest(cfg, phase), ans)
  {
    match phase
    case AcquireLoad(call) =>
      if ans.Failed? then Returned(Outcome(None, Some(ans.err))) else AfterUnlockedLoad(cfg, call, ans.cp)
    case AcquireCreate(call, key) =>
      if ans.Ack? then AcquireWrite(call, key)
      else Returned(Outcome(None, Some(if ans.LeaseExists? then ErrLeaseHeld else ans.err)))
    case AcquireWrite(call, key) =>
      if ans.Ack? then Running(Some(key), Start(call)) else AcquireUndo(key, ans.err)
    case AcquireUndo(_, err) => Returned(Outcome(None, Some(err)))
    case Running(lease, body) => Leave(lease, BodyResume(cfg.Delay(), body, ans))
    case ReleaseRead(key, out) =>
      if ans.LeaseContent? && Holds(cfg, key, ans.content) then ReleaseRemove(key, out) else Returned(out)
    case ReleaseRemove(_, out) => Returned(out)
  }

  /** The checks `Acquire` makes before it touches the file system. */
  function AfterUnlockedLoad(cfg: Config, call: Call, cp: Checkpoint): Phase {
    if cp.task.runOwner == "" || cfg.ownerID == "" || cp.task.taskID == "" then
      Returned(Outcome(None, Some(ErrExternal(0))))
    else
      AcquireCreate(call, KeyOf(cp.task))
  }

  /** A finished body hands over to the deferred release. */
  function Leave(lease: Option<LeaseKey>, body: Body): Phase {
    if !body.Finished? then Running(lease, body)
    else if lease.Some? then ReleaseRead(lease.value, body.out)
    else Returned(body.out)
  }

  /** The lease file still carries this dispatcher's owner and task. */
  predicate Holds(cfg: Config, key: LeaseKey, content: Option<LeaseRecord>) {
    && content.Some?
    && content.value.ownerID == cfg.ownerID
    && content.value.taskID == key.taskID
  }
}
