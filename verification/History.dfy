/** What has happened to one checkpoint: the writes that reached its file and the external calls
    made on its behalf, oldest first. `EventOk` is the protocol's specification: it judges an
    event by the history before it and by nothing else, in particular not by any program point. */
module DeliveryHistory {
  import opened CheckpointModel
  import opened DispatcherMachine

  datatype Event =
    | Persisted(caller: Caller, delay: int, cp: Checkpoint)
    | Called(caller: Caller, at: int, req: Request)
    | Answered(req: Request, ans: Answer)

  datatype History = Genesis(cp: Checkpoint) | Then(past: History, last: Event)

  function Initial(h: History): Checkpoint {
    match h
    case Genesis(cp) => cp
    case Then(past, _) => Initial(past)
  }

  /** The checkpoint on disk after `h`. */
  function Current(h: History): Checkpoint {
    match h
    case Genesis(cp) => cp
    case Then(past, e) => if e.Persisted? then e.cp else Current(past)
  }

  /** The checkpoint on disk before the latest write. */
  function Previous(h: History): Checkpoint {
    match h
    case Genesis(cp) => cp
    case Then(past, e) => if e.Persisted? then Current(past) else Previous(past)
  }

  predicate Happened(h: History, e: Event) {
    h.Then? && (h.last == e || Happened(h.past, e))
  }

  /** The Sends that left and have not come back as definitely not accepted: in flight, lost in a
      crash, uncertain, or delivered. A Send is known by the attempt number it was made under. */
  function OpenSends(h: History): set<int> {
    match h
    case Genesis(_) => {}
    case Then(past, e) =>
      if e.Called? && e.req.ReqSend? then OpenSends(past) + {e.req.attempt}
      else if e.Answered? && e.req.ReqSendReply? && e.ans == Failed(ErrRequestNotAccepted) then
        OpenSends(past) - {e.req.attempt}
      else OpenSends(past)
  }

  /** The attempt number of the latest Send, or the initial attempts when there was none. */
  function LastSend(h: History): int {
    match h
    case Genesis(cp) => cp.attempts
    case Then(past, e) => if e.Called? && e.req.ReqSend? then e.req.attempt else LastSend(past)
  }

  function SendCount(h: History): nat {
    match h
    case Genesis(_) => 0
    case Then(past, e) => SendCount(past) + if e.Called? && e.req.ReqSend? then 1 else 0
  }

  /** Some Cancel has written to the checkpoint. */
  predicate CancelSeen(h: History) {
    h.Then? && ((h.last.Persisted? && h.last.caller.ByCancel?) || CancelSeen(h.past))
  }

  /** The observation reports completion with a receipt the task accepts. */
  predicate Earns(obs: Observation, task: Task) {
    obs.delivery.DeliveryCompleted? && obs.receipt.Some? && Satisfies(obs.receipt.value, task)
  }

  predicate IsEarningObservation(e: Event, task: Task) {
    e.Answered? && e.req.ReqObserve? && e.ans.Observed? && Earns(e.ans.obs, task)
  }

  /** AO has reported a completed delivery together with an accepted receipt for this task. */
  predicate Earned(h: History, task: Task) {
    h.Then? && (IsEarningObservation(h.last, task) || Earned(h.past, task))
  }

  /** What every checkpoint on disk satisfies. */
  predicate CheckpointOk(cp: Checkpoint) {
    && cp.Valid()
    && (cp.sideEffect.SideEffectCompleted? <==> cp.state.StateCompleted?)
    && (cp.Terminal() || cp.state.StatePending? ==> cp.nextRetryAt.None?)
    && (cp.state.StateWaitingRetry? || cp.state.StateDeliveryUncertain? ==> cp.nextRetryAt.Some?)
    && (!cp.Terminal() ==> cp.attempts <= cp.task.retryBudget)
    && (cp.state.StateWaitingRetry? ==> cp.attempts < cp.task.retryBudget)
    && cp.attempts <= cp.task.retryBudget + 1
  }

  /** States that end a Cancel, or that a Cancel can leave behind. */
  predicate AfterCancel(state: TaskState) {
    state.StateCancelled? || state.StateCancelUnconfirmed? || state.StateCompleted? || state.StateBlocked?
  }

  /** The state graph, by who writes. PENDING is never entered. */
  predicate Edge(caller: Caller, from: TaskState, to: TaskState) {
    match caller
    case ByStep =>
      (match from
       case StatePending =>
         to.StateWaitingRetry? || to.StateDeliveryUncertain? || to.StateDelivered?
         || to.StateCompleted? || to.StateCancelled? || to.StateBlocked?
       case StateWaitingRetry =>
         to.StateWaitingRetry? || to.StateDeliveryUncertain? || to.StateDelivered?
         || to.StateCompleted? || to.StateCancelled? || to.StateBlocked?
       case StateDeliveryUncertain =>
         to.StateWaitingRetry? || to.StateDeliveryUncertain? || to.StateDelivered?
         || to.StateCancelled? || to.StateBlocked?
       case StateDelivered =>
         to.StateDelivered? || to.StateDeliveryUncertain?
         || to.StateCompleted? || to.StateCancelled? || to.StateBlocked?
       case _ => to == from)
    case ByCancel =>
      (match from
       case StatePending => to.StateCancelled? || to.StateCancelUnconfirmed?
       case StateWaitingRetry => to.StateCancelled? || to.StateCancelUnconfirmed?
       case StateDeliveryUncertain => to.StateCancelUnconfirmed?
       case StateDelivered => to.StateCancelUnconfirmed?
       case StateCancelUnconfirmed => AfterCancel(to)
       case _ => false)
  }

  /** The history ends with the answer `ans` to `req`. */
  predicate Told(h: History, req: Request, ans: Answer) {
    h.Then? && h.last == Answered(req, ans)
  }

  // ----- what a write has to show -----

  /** A receipt that confirms the delivery. */
  predicate Confirms(ans: Answer) {
    ans.Receipt? && (ans.receipt.state.DeliveryAccepted? || ans.receipt.state.DeliveryCompleted?)
  }

  /** What costs a Step an attempt: a Send it is about to make, a probe that failed, a recovery that
      confirmed nothing. */
  predicate CostsAttempt(caller: Caller, req: Request, ans: Answer) {
    && caller.ByStep?
    && (|| (req.ReqPreflight? && ans.Ack?)
        || (req.ReqObserve? && ans.Failed?)
        || (req.ReqRecoverOnly? && !Confirms(ans) && !(ans.Failed? && ans.err.ErrSessionContaminated?)))
  }

  /** AO shows a session that is there and that nobody has stopped; an uncertain delivery is recovered
      whatever else the observation says. */
  predicate Speaks(disk: Checkpoint, ans: Answer) {
    ans.Observed? && ans.obs.sessionExists && !ans.obs.humanStopped && !disk.state.StateDeliveryUncertain?
  }

  /** A receipt from which a Cancel learns the turn. */
  predicate NamesTurn(ans: Answer) {
    && ans.Receipt? && ans.receipt.turnID != ""
    && !ans.receipt.state.DeliveryNotFound? && !ans.receipt.state.DeliveryReserved? && !ans.receipt.state.DeliveryOther?
  }

  /** What may be tried again: a probe that failed, a delivery AO does not know, a recovery or a Send that
      has not shown where the delivery is. */
  predicate Retried(disk: Checkpoint, req: Request, ans: Answer) {
    || (req.ReqObserve? && ans.Failed?)
    || (req.ReqObserve? && Speaks(disk, ans) && ans.obs.delivery.DeliveryNotFound? && !disk.state.StateDelivered?)
    || (req.ReqRecoverOnly? && !Confirms(ans) && ans != Failed(ErrSessionContaminated))
    || (req.ReqSendReply? && ans.Failed? && ans != Failed(ErrSessionContaminated))
  }

  /** What each recorded reason says about the answer `ans` to `req` that led to it, and the state and
      the deadline that go with it. Where one answer gives several reasons to block, the first check
      decides. */
  predicate Justified(caller: Caller, disk: Checkpoint, req: Request, ans: Answer, cp: Checkpoint) {
    if caller.ByCancel? then JustifiedCancel(disk, req, ans, cp) else JustifiedStep(disk, req, ans, cp)
  }

  predicate JustifiedCancel(disk: Checkpoint, req: Request, ans: Answer, cp: Checkpoint) {
    var settled := ans.Observed? && ans.obs.sessionExists;
    match cp.lastErrorKind
    case AoStopUnconfirmed => cp.state.StateCancelUnconfirmed? && req.ReqRecoverOnly? && NamesTurn(ans)
    case HumanStop => cp.state.StateCancelled? && settled && ans.obs.delivery.DeliveryStopped?
    case DeliveryFailed => cp.state.StateBlocked? && settled && ans.obs.delivery.DeliveryRejected?
    case NoError => cp.state.StateCompleted? && settled && Earns(ans.obs, cp.task)
    case CompletedOutcomeUnverified =>
      cp.state.StateCancelUnconfirmed? && settled && ans.obs.delivery.DeliveryCompleted? && !Earns(ans.obs, cp.task)
    case _ => false
  }

  predicate JustifiedStep(disk: Checkpoint, req: Request, ans: Answer, cp: Checkpoint) {
    var task := cp.task;
    var left := cp.attempts < task.retryBudget;
    var blocked := cp.state.StateBlocked?;
    var uncertain := cp.state.StateDeliveryUncertain?;
    match cp.lastErrorKind
    case NoError =>
      && cp.nextRetryAt.None?
      && (|| (cp.state.StateCompleted? && Speaks(disk, ans) && Earns(ans.obs, task))
          || (cp.state.StateDelivered? && Speaks(disk, ans) && ans.obs.delivery.DeliveryAccepted?)
          || (cp.state.StateDelivered? && ans.Receipt? && (req.ReqSendReply? || Confirms(ans))))
    case HumanStop =>
      && cp.state.StateCancelled? && ans.Observed? && ans.obs.sessionExists
      && (ans.obs.humanStopped || (Speaks(disk, ans) && ans.obs.delivery.DeliveryStopped?))
    case ArtifactReadFailed => blocked && req.ReqArtifact? && ans.Failed?
    case ArtifactChanged => blocked && ans.ArtifactSeen? && ans.artifact.sha256 != task.artifactSHA256
    case GitHeadChanged =>
      && blocked && ans.ArtifactSeen?
      && ans.artifact.sha256 == task.artifactSHA256 && ans.artifact.gitHead != task.gitHead
    case WorktreeBranchMismatch =>
      && blocked && ans.ArtifactSeen?
      && ans.artifact.sha256 == task.artifactSHA256 && ans.artifact.gitHead == task.gitHead
      && task.sessionBranch != "" && ans.artifact.branch != task.sessionBranch
    case AoObserveFailed =>
      && req.ReqObserve? && ans.Failed? && left && cp.nextRetryAt.Some?
      && (if disk.state.StateDelivered? || disk.state.StateDeliveryUncertain? then cp.state == disk.state
          else cp.state.StateWaitingRetry?)
    case SessionNotFound => blocked && ans.Observed? && !ans.obs.sessionExists
    case SessionContaminated =>
      blocked && (req.ReqRecoverOnly? || req.ReqSendReply?) && ans == Failed(ErrSessionContaminated)
    case DeliveryUncertainKind =>
      && uncertain && left && ans != Failed(ErrSessionContaminated)
      && (if req.ReqRecoverOnly? then ans.Failed? || (!Confirms(ans) && !disk.state.StateDeliveryUncertain?)
          else req.ReqSendReply? && ans.Failed? && ans != Failed(ErrRequestNotAccepted))
    case DeliveryNotConfirmed =>
      uncertain && left && req.ReqRecoverOnly? && ans.Receipt? && !Confirms(ans) && disk.state.StateDeliveryUncertain?
    case DeliveryReceiptLost =>
      blocked && disk.state.StateDelivered? && Speaks(disk, ans) && ans.obs.delivery.DeliveryNotFound?
    case DeliveryRejectedKind => blocked && Speaks(disk, ans) && ans.obs.delivery.DeliveryRejected?
    case UnknownDeliveryState => blocked && Speaks(disk, ans) && ans.obs.delivery.DeliveryOther?
    case RetryBudgetExhausted => blocked && !left && Retried(disk, req, ans)
    case SessionPreflightFailed => blocked && req.ReqPreflight? && ans.Failed?
    case SendInFlight => uncertain && req.ReqPreflight? && ans.Ack?
    case RequestNotAccepted =>
      cp.state.StateWaitingRetry? && left && req.ReqSendReply? && ans == Failed(ErrRequestNotAccepted)
    case TaskReceiptMissing =>
      blocked && Speaks(disk, ans) && ans.obs.delivery.DeliveryCompleted? && ans.obs.receipt.None?
    case TaskOracleFailed =>
      && blocked && Speaks(disk, ans) && ans.obs.delivery.DeliveryCompleted? && ans.obs.receipt.Some?
      && !Earns(ans.obs, task)
    case _ => false
  }

  /** A write is a Step's new date on a finished task, a Cancel's first mark, or what the answer just
      before it means: the turn and the attempts follow from that answer too. */
  predicate Explained(past: History, caller: Caller, cp: Checkpoint) {
    var disk := Current(past);
    if caller.ByStep? && disk.Terminal() then cp == disk.(lastObserved := cp.lastObserved)
    else
      || (caller.ByCancel? && IsMark(disk, cp))
      || (past.Then? && past.last.Answered? && past.past.Then? && past.past.last.Called?
          && AnswerExplains(caller, disk, past.past.last.at, past.last.req, past.last.ans, cp))
  }

  predicate IsMark(disk: Checkpoint, cp: Checkpoint) {
    && cp.attempts == disk.attempts && cp.aoTurnID == disk.aoTurnID
    && (if disk.aoTurnID == "" && (disk.state.StatePending? || disk.state.StateWaitingRetry?)
        then cp.state.StateCancelled? && cp.lastErrorKind.HumanStop?
        else cp.state.StateCancelUnconfirmed? && cp.lastErrorKind.AoStopUnconfirmed?)
  }

  /** The record is dated by the clock reading of the Step, or by the mark of the Cancel. */
  predicate AnswerExplains(caller: Caller, disk: Checkpoint, at: int, req: Request, ans: Answer, cp: Checkpoint) {
    && cp.lastObserved == (if caller.ByStep? then at else disk.lastObserved)
    && Justified(caller, disk, req, ans, cp)
    && cp.attempts == disk.attempts + (if CostsAttempt(caller, req, ans) then 1 else 0)
    && (if ans.Receipt? && (caller.ByCancel? || req.ReqSendReply? || Confirms(ans))
        then cp.aoTurnID == ans.receipt.turnID else cp.aoTurnID == disk.aoTurnID)
  }

  /** A write: what it may change, and what it has to have earned. */
  predicate WriteOk(past: History, caller: Caller, delay: int, cp: Checkpoint) {
    var disk := Current(past);
    && CheckpointOk(cp)
    && cp.task == disk.task
    && Edge(caller, disk.state, cp.state)
    && disk.attempts <= cp.attempts <= disk.attempts + 1
    && (cp.nextRetryAt.Some? ==> cp.nextRetryAt.value == cp.lastObserved + delay && delay > 0)
    && (cp.state.StateWaitingRetry? ==> OpenSends(past) == {})
    && (cp.state.StateCompleted? ==> Earned(past, cp.task))
    && (caller.ByStep? && CancelSeen(past) ==> cp.state == disk.state)
    && Explained(past, caller, cp)
  }

  // ----- what an external call has to show -----

  /** The artifact and the worktree are the task's own. */
  predicate ArtifactFits(artifact: ArtifactObservation, task: Task) {
    && artifact.sha256 == task.artifactSHA256 && artifact.gitHead == task.gitHead
    && (task.sessionBranch == "" || artifact.branch == task.sessionBranch)
  }

  /** The artifact has just been read and fits. */
  predicate ArtifactChecked(past: History) {
    && past.Then? && past.last.Answered? && past.last.req.ReqArtifact? && past.last.ans.ArtifactSeen?
    && ArtifactFits(past.last.ans.artifact, Current(past).task)
  }

  /** AO has just been observed. */
  predicate JustObserved(past: History) {
    past.Then? && past.last.Answered? && past.last.req.ReqObserve? && past.last.ans.Observed?
  }

  /** A Step has just seen that the session is there and nobody has stopped it. */
  predicate SessionUp(past: History) {
    && JustObserved(past) && past.last.ans.obs.sessionExists && !past.last.ans.obs.humanStopped
    && past.past.Then? && past.past.last.Called? && past.past.last.caller.ByStep?
  }

  /** A call is about this task, and the answer or the write just before it calls for it. A Step
      looks at AO behind a fitting artifact, recovers or prepares behind a live session, and sends
      behind a preflight and its own write-ahead; a Cancel stops what it has just seen unsettled. */
  predicate Ready(past: History, caller: Caller, req: Request) {
    var disk := Current(past);
    match req
    case ReqArtifact(path) => caller.ByStep? && path == disk.task.artifactPath
    case ReqObserve(session, turn) =>
      && session == disk.task.sessionID && turn == disk.aoTurnID
      && (caller.ByStep? ==> ArtifactChecked(past))
    case ReqRecoverOnly(session, delivery) =>
      && session == disk.task.sessionID && delivery == disk.task.deliveryID
      && (caller.ByStep? ==>
            SessionUp(past) && (disk.state.StateDeliveryUncertain? || past.last.ans.obs.delivery.DeliveryReserved?))
      && (caller.ByCancel? ==> disk.aoTurnID == "")
    case ReqPreflight(task) =>
      && caller.ByStep? && task == disk.task
      && SessionUp(past) && past.last.ans.obs.delivery.DeliveryNotFound?
    case ReqSend(session, delivery, action, _) =>
      && caller.ByStep? && session == disk.task.sessionID && delivery == disk.task.deliveryID
          && action == disk.task.nextAction
      && past.Then? && past.last.Persisted?
      && past.past.Then? && past.past.last == Answered(ReqPreflight(disk.task), Ack)
    case ReqStop(session, turn) =>
      && caller.ByCancel? && session == disk.task.sessionID && turn == disk.aoTurnID
      && disk.task.sessionExclusive && disk.task.runOwner != ""
      && JustObserved(past) && !Settles(past.last.ans.obs)
    case _ => false
  }

  /** A Send: every earlier one was refused; the attempt is already on disk as uncertain, was due
      and fits the budget; nobody has cancelled. */
  predicate SendOk(past: History, caller: Caller, at: int, attempt: int) {
    var disk := Current(past);
    && caller.ByStep?
    && OpenSends(past) == {}
    && LastSend(past) < attempt <= disk.task.retryBudget
    && disk.state.StateDeliveryUncertain?
    && disk.attempts == attempt
    && !Previous(past).NotYetDue(at)
    && !CancelSeen(past)
  }

  /** Any other external call. A Step needs a live checkpoint nobody has cancelled, and the deadline
      of a delivered or uncertain one must have passed. A Cancel needs its own mark on disk. */
  predicate CallOk(past: History, caller: Caller, at: int) {
    var disk := Current(past);
    match caller
    case ByStep =>
      && !disk.Terminal()
      && !CancelSeen(past)
      && (disk.state.StateDelivered? || disk.state.StateDeliveryUncertain? ==> !disk.NotYetDue(at))
    case ByCancel =>
      && CancelSeen(past)
      && disk.state.StateCancelUnconfirmed?
  }

  /** An answer fits the call just before it; what comes back after a Send is the Send's reply. */
  predicate AnswerOk(past: History, req: Request, ans: Answer) {
    && Fits(req, ans)
    && past.Then? && past.last.Called?
    && (if req.ReqSendReply? then past.last.req.ReqSend? && past.last.req.attempt == req.attempt
        else past.last.req == req)
  }

  predicate EventOk(past: History, e: Event) {
    match e
    case Persisted(caller, delay, cp) => WriteOk(past, caller, delay, cp)
    case Called(caller, at, req) =>
      Ready(past, caller, req) && if req.ReqSend? then SendOk(past, caller, at, req.attempt)
          else CallOk(past, caller, at)
    case Answered(req, ans) => AnswerOk(past, req, ans)
  }

  /** Every event was in order when it happened. */
  predicate Lawful(h: History) {
    match h
    case Genesis(cp) => Fresh(cp)
    case Then(past, e) => Lawful(past) && EventOk(past, e)
  }
}
