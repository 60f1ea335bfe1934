/** What one whole call costs and achieves while the store and the lease work. Every error of a Step
    is paid for with an attempt or ends the task, and every other Step makes progress or waits for a
    deadline. A Cancel always takes the task out of reach, and reports an error exactly when it
    could not confirm the stop. */
module StepAccounting {
  import opened CheckpointModel
  import opened DispatcherMachine
  import opened DeliveryHistory
  import opened LocalSafety

  /** AO says the delivery is still on its way; only such answers let a Step repeat itself. */
  predicate Stalls(ans: Answer) {
    ans.Observed? && (ans.obs.delivery.DeliveryAccepted? || ans.obs.delivery.DeliveryReserved?)
  }

  /** The store did not do what it was asked. */
  predicate StoreFault(req: Request, ans: Answer) {
    (req.ReqLoad? && ans.Failed?) || (req.ReqSave? && ans.SaveFailed?)
  }

  /** How things stood when a call began. */
  datatype Origin = Origin(call: Call, disk: Checkpoint, clock: int, faults: nat, stalls: nat)

  predicate Paid(start: Checkpoint, end: Checkpoint) {
    end.Terminal() || end.attempts == start.attempts + 1
  }

  predicate Advances(start: Checkpoint, end: Checkpoint, stalled: bool) {
    || Paid(start, end)
    || stalled
    || (start.state.StateDeliveryUncertain? && end.state.StateDelivered? && end.attempts == start.attempts)
  }

  /** A Step that finds its deadline ahead returns the checkpoint unsaved. */
  predicate Waits(start: Checkpoint, cp: Checkpoint) {
    && cp == start.(lastObserved := cp.lastObserved)
    && start.NotYetDue(cp.lastObserved)
    && (start.state.StateWaitingRetry? || start.state.StateDeliveryUncertain? || start.state.StateDelivered?)
  }

  /** What a Step leaves on disk and returns. */
  predicate StepResult(origin: Origin, disk: Checkpoint, out: Outcome, stalled: bool) {
    var start := origin.disk;
    && out.cp.Some?
    && start.attempts <= disk.attempts <= start.attempts + 1
    && disk.task == start.task
    && (out.err.Some? ==> Paid(start, disk))
    && (|| (out.cp.value == disk && Advances(start, disk, stalled))
        || (out.err.None? && disk == start && Waits(start, out.cp.value)
            && out.cp.value.lastObserved >= origin.clock))
  }

  predicate StepInv(origin: Origin, disk: Checkpoint, body: Body, stalled: bool) {
    var start := origin.disk;
    match body
    case LoadForStep => disk == start
    case ReadClock(cp) => cp == disk == start
    case ReadArtifact(cp, now) => disk == start && Working(start, cp, now) && now >= origin.clock
    case ObserveDelivery(cp, now) => disk == start && Working(start, cp, now) && now >= origin.clock
    case Recover(cp, now, _) =>
      disk == start && Working(start, cp, now) && now >= origin.clock
          && (start.state.StateDeliveryUncertain? || stalled)
    case Preflight(cp, now) => disk == start && Working(start, cp, now) && now >= origin.clock
    case WriteAhead(cp, now) => Pending(start, disk, cp) && cp.attempts == start.attempts + 1
    case IssueSend(cp, now) => cp == disk && cp.task == start.task && cp.attempts == start.attempts + 1
    case AwaitSend(cp, now) => cp == disk && cp.task == start.task && cp.attempts == start.attempts + 1
    case SaveAndReturn(_, cp, err) =>
      && Pending(start, disk, cp)
      && (err.Some? ==> Paid(start, cp))
      && Advances(start, cp, stalled)
    case Finished(out) => StepResult(origin, disk, out, stalled)
    case _ => false
  }

  predicate Pending(start: Checkpoint, disk: Checkpoint, cp: Checkpoint) {
    && cp.task == start.task
    && start.attempts <= disk.attempts <= cp.attempts <= start.attempts + 1
  }

  lemma ObserveKeepsAccount(delay: int, origin: Origin, cp: Checkpoint, now: int, ans: Answer)
    requires (ans.Observed? || ans.Failed?) && Working(origin.disk, cp, now) && now >= origin.clock
    ensures StepInv(origin, origin.disk, AfterObserve(delay, cp, now, ans), Stalls(ans))
  {
  }

  lemma RecoverKeepsAccount(delay: int, origin: Origin, cp: Checkpoint, now: int, kind: ErrorKind,
                            ans: Answer, stalled: bool)
    requires (ans.Receipt? || ans.Failed?) && Working(origin.disk, cp, now) && now >= origin.clock
    requires origin.disk.state.StateDeliveryUncertain? || stalled
    ensures StepInv(origin, origin.disk, AfterRecover(delay, cp, now, kind, ans), stalled)
  {
  }

  lemma SendKeepsAccount(delay: int, origin: Origin, cp: Checkpoint, now: int, ans: Answer, stalled: bool)
    requires (ans.Receipt? || ans.Failed?) && cp.task == origin.disk.task
    requires cp.attempts == origin.disk.attempts + 1
    ensures StepInv(origin, cp, AfterSend(delay, cp, now, ans), stalled)
  {
  }

  lemma MoreStalled(origin: Origin, disk: Checkpoint, body: Body, stalled: bool)
    requires StepInv(origin, disk, body, stalled)
    ensures StepInv(origin, disk, body, true)
  {
  }

  /** Every answer that is no store fault keeps the account of a Step. */
  lemma AccountKept(delay: int, origin: Origin, disk: Checkpoint, body: Body, ans: Answer, stalled: bool)
    requires StepInv(origin, disk, body, stalled) && Honest(disk, BodyRequest(body), ans)
    requires !StoreFault(BodyRequest(body), ans) && (ans.Time? ==> ans.now >= origin.clock)
    ensures StepInv(origin, DiskAfter(disk, BodyRequest(body), ans), BodyResume(delay, body, ans),
                    stalled || Stalls(ans))
  {
    match body
    case ObserveDelivery(cp, now) =>
      ObserveKeepsAccount(delay, origin, cp, now, ans);
      if !Stalls(ans) && stalled {
        MoreStalled(origin, disk, AfterObserve(delay, cp, now, ans), false);
      }
    case Recover(cp, now, kind) => RecoverKeepsAccount(delay, origin, cp, now, kind, ans, stalled);
    case AwaitSend(cp, now) => SendKeepsAccount(delay, origin, cp, now, ans, stalled);
    case _ =>
  }

  // ----- Cancel -----

  /** Nothing has to be stopped: no Send has left that could still arrive. */
  predicate Unsent(start: Checkpoint) {
    start.aoTurnID == "" && (start.state.StatePending? || start.state.StateWaitingRetry?)
  }

  predicate Over(start: Checkpoint) {
    start.state.StateCompleted? || start.state.StateBlocked? || start.state.StateCancelled?
  }

  predicate Unconfirmed(cp: Checkpoint) {
    cp.state.StateCancelUnconfirmed? && cp.lastErrorKind.AoStopUnconfirmed?
  }

  /** What a Cancel leaves on disk and returns. */
  predicate CancelResult(origin: Origin, disk: Checkpoint, out: Outcome) {
    var start := origin.disk;
    && out.cp == Some(disk)
    && disk.task == start.task && disk.attempts == start.attempts
    && AfterCancel(disk.state)
    && (Over(start) ==> disk == start && out.err.None?)
    && (Unsent(start) ==> disk.state.StateCancelled? && out.err.None?)
    && (!Over(start) ==> (out.err.Some? <==> Unconfirmed(disk)))
    && (start.aoTurnID != "" ==> disk.aoTurnID == start.aoTurnID)
  }

  /** The mark of this Cancel, with the turn it knows. */
  predicate MarkedFrom(start: Checkpoint, cp: Checkpoint) {
    && !Over(start) && !Unsent(start) && Unconfirmed(cp)
    && cp.task == start.task && cp.attempts == start.attempts
    && (start.aoTurnID != "" ==> cp.aoTurnID == start.aoTurnID)
  }

  predicate CancelInv(origin: Origin, disk: Checkpoint, body: Body) {
    var start := origin.disk;
    match body
    case LoadForCancel(_) => disk == start
    case MarkCancelled(cp) => MarkedFrom(start, cp)
    case CancelRecover(cp) => cp == disk && MarkedFrom(start, cp) && cp.aoTurnID == ""
    case SaveTurn(cp) => MarkedFrom(start, cp)
    case CancelObserve(cp) => cp == disk && MarkedFrom(start, cp)
    case StopTurn(cp) => cp == disk && MarkedFrom(start, cp)
    case ObserveAfterFailedStop(cp, _) => cp == disk && MarkedFrom(start, cp)
    case ObserveAfterStop(cp) => cp == disk && MarkedFrom(start, cp)
    case SaveAndReturn(_, cp, err) => CancelResult(origin, cp, Outcome(Some(cp), err))
    case Finished(out) => CancelResult(origin, disk, out)
    case _ => false
  }

  lemma SettleKeepsAccount(origin: Origin, cp: Checkpoint, obs: Observation)
    requires MarkedFrom(origin.disk, cp) && Settles(obs)
    ensures CancelInv(origin, cp, Settle(cp, obs))
  {
  }

  /** Every answer that is no store fault keeps the account of a Cancel. */
  lemma CancelAccountKept(delay: int, origin: Origin, disk: Checkpoint, body: Body, ans: Answer)
    requires CancelInv(origin, disk, body) && Honest(disk, BodyRequest(body), ans)
    requires !StoreFault(BodyRequest(body), ans)
    ensures CancelInv(origin, DiskAfter(disk, BodyRequest(body), ans), BodyResume(delay, body, ans))
  {
    if ans.Observed? && Settles(ans.obs) {
      SettleKeepsAccount(origin, disk, ans.obs);
    }
  }

  // ----- either call -----

  predicate CallInv(origin: Origin, disk: Checkpoint, body: Body, stalled: bool) {
    if origin.call.StepCall? then StepInv(origin, disk, body, stalled) else CancelInv(origin, disk, body)
  }

  predicate CallResult(origin: Origin, disk: Checkpoint, out: Outcome, stalled: bool) {
    if origin.call.StepCall? then StepResult(origin, disk, out, stalled) else CancelResult(origin, disk, out)
  }

  lemma CallAccountKept(delay: int, origin: Origin, disk: Checkpoint, body: Body, ans: Answer, stalled: bool)
    requires CallInv(origin, disk, body, stalled) && Honest(disk, BodyRequest(body), ans)
    requires !StoreFault(BodyRequest(body), ans) && (ans.Time? ==> ans.now >= origin.clock)
    ensures CallInv(origin, DiskAfter(disk, BodyRequest(body), ans), BodyResume(delay, body, ans), stalled
                    || Stalls(ans))
  {
    hide StepInv, CancelInv, BodyResume, DiskAfter;
    if origin.call.StepCall? {
      AccountKept(delay, origin, disk, body, ans, stalled);
    } else {
      CancelAccountKept(delay, origin, disk, body, ans);
    }
  }
}
