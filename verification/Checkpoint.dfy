/** The durable recovery contract of one delivery task (internal/recovery/checkpoint.go)
    and the vocabulary its dispatcher shares with AO, the artifact reader and the lease. */
module CheckpointModel {

  datatype Option<+T> = None | Some(value: T)

  datatype TaskState =
    | StatePending
    | StateDeliveryUncertain
    | StateWaitingRetry
    | StateDelivered
    | StateCompleted
    | StateCancelled
    | StateCancelUnconfirmed
    | StateBlocked

  datatype SideEffectState = SideEffectPending | SideEffectCompleted

  /** The reasons a checkpoint records in lastErrorKind. */
  datatype ErrorKind =
    | NoError
    | HumanStop
    | AoStopUnconfirmed
    | CompletedOutcomeUnverified
    | DeliveryFailed
    | ArtifactReadFailed
    | ArtifactChanged
    | GitHeadChanged
    | WorktreeBranchMismatch
    | AoObserveFailed
    | SessionNotFound
    | SessionContaminated
    | DeliveryUncertainKind
    | DeliveryNotConfirmed
    | DeliveryReceiptLost
    | DeliveryRejectedKind
    | RetryBudgetExhausted
    | SessionPreflightFailed
    | SendInFlight
    | RequestNotAccepted
    | UnknownDeliveryState
    | TaskReceiptMissing
    | TaskOracleFailed

  /** The part of a checkpoint that identifies the task; no operation rewrites it. */
  datatype Task = Task(
    version: int,
    taskID: string,
    deliveryID: string,
    sessionID: string,
    projectID: string,
    sessionKind: string,
    sessionHarness: string,
    sessionModel: string,
    sessionEffort: string,
    sessionBranch: string,
    runOwner: string,
    sessionExclusive: bool,
    artifactPath: string,
    artifactSHA256: string,
    gitHead: string,
    nextAction: string,
    retryBudget: int)

  /** Times are integers; only their order and their differences matter. */
  datatype Checkpoint = Checkpoint(
    task: Task,
    aoTurnID: string,
    state: TaskState,
    sideEffect: SideEffectState,
    attempts: int,
    nextRetryAt: Option<int>,
    lastErrorKind: ErrorKind,
    lastObserved: int)
  {
    predicate Terminal() {
      || state.StateBlocked?
      || state.StateCancelled?
      || state.StateCancelUnconfirmed?
      || state.StateCompleted?
      || sideEffect.SideEffectCompleted?
    }

    predicate Valid() {
      && task.version == 1
      && task.taskID != "" && task.deliveryID != "" && task.sessionID != ""
      && task.artifactPath != "" && task.artifactSHA256 != "" && task.gitHead != ""
      && task.retryBudget >= 0 && attempts >= 0
    }

    /** A deadline is recorded and `now` is before it. */
    predicate NotYetDue(now: int) {
      nextRetryAt.Some? && now < nextRetryAt.value
    }
  }

  /** A checkpoint nobody has worked on yet. */
  predicate Fresh(cp: Checkpoint) {
    && cp.Valid()
    && cp.state.StatePending?
    && cp.sideEffect.SideEffectPending?
    && cp.aoTurnID == ""
    && cp.nextRetryAt.None?
    && cp.attempts <= cp.task.retryBudget
  }

  /** `DeliveryOther` stands for every string that is not one of the six named states. */
  datatype DeliveryState =
    | DeliveryNotFound
    | DeliveryReserved
    | DeliveryAccepted
    | DeliveryCompleted
    | DeliveryRejected
    | DeliveryStopped
    | DeliveryOther

  datatype TaskReceipt = TaskReceipt(taskID: string, artifactSHA256: string, accepted: bool)

  datatype Observation = Observation(
    sessionExists: bool,
    humanStopped: bool,
    delivery: DeliveryState,
    receipt: Option<TaskReceipt>)

  datatype DeliveryReceipt = DeliveryReceipt(state: DeliveryState, turnID: string)

  datatype ArtifactObservation = ArtifactObservation(sha256: string, gitHead: string, branch: string)

  /** The receipt satisfies the task's oracle. */
  predicate Satisfies(receipt: TaskReceipt, task: Task) {
    && receipt.accepted
    && receipt.taskID == task.taskID
    && receipt.artifactSHA256 == task.artifactSHA256
  }

  /** `ErrExternal` is any error of a collaborator the dispatcher does not tell apart;
      `ErrRefused` is an error the dispatcher makes itself, named after the kind it records. */
  datatype Error =
    | ErrRequestNotAccepted
    | ErrSessionContaminated
    | ErrDeliveryUncertain
    | ErrSessionOwnerMismatch
    | ErrLeaseHeld
    | ErrRefused(kind: ErrorKind)
    | ErrExternal(code: int)

  /** What Step and Cancel return; `None` is the zero checkpoint. */
  datatype Outcome = Outcome(cp: Option<Checkpoint>, err: Option<Error>)

  datatype LeaseKey = LeaseKey(runOwner: string, taskID: string)
  {
    /** The lease file's name, before hashing. */
    function Name(): string { runOwner + "\n" + taskID }
  }

  datatype LeaseRecord = LeaseRecord(ownerID: string, taskID: string, pid: nat)

  function KeyOf(task: Task): LeaseKey {
    LeaseKey(task.runOwner, task.taskID)
  }

  /** A lease file's name tells its task, as long as no run owner contains a line break. */
  lemma NameTellsTask(k: LeaseKey, l: LeaseKey)
    requires '\n' !in k.runOwner && '\n' !in l.runOwner
    ensures k.Name() == l.Name() <==> k == l
  {
    if k.Name() == l.Name() {
      var name := k.Name();
      assert name[|k.runOwner|] == '\n' && name[|l.runOwner|] == '\n';
      assert k.runOwner == name[..|k.runOwner|] && l.runOwner == name[..|l.runOwner|];
      assert k.taskID == name[|k.runOwner| + 1..] && l.taskID == name[|l.runOwner| + 1..];
    }
  }
}
