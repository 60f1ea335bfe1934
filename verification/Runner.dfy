/** The recovery loop (internal/recovery/runner.go). It carries no clause that excuses it from
    terminating: the measure of its loop is the proof that it reaches a terminal checkpoint. Other
    dispatchers may work on the same checkpoint between its rounds. */
module RunnerLoop {
  import opened CheckpointModel
  import opened DispatcherMachine
  import opened DeliveryHistory
  import opened LocalSafety
  import opened StepAccounting
  import opened DispatcherClass

  predicate IsWaitingOrDelivered(state: TaskState) {
    state.StateDelivered? || state.StateWaitingRetry? || state.StateDeliveryUncertain? || state.StatePending?
  }

  predicate HasDeadline(cp: Checkpoint) {
    (cp.state.StateWaitingRetry? || cp.state.StateDeliveryUncertain? || cp.state.StateDelivered?)
        && cp.nextRetryAt.Some?
  }

  /** Attempts a live checkpoint has left, plus the one that blocks it. */
  function AttemptsLeft(cp: Checkpoint): nat {
    if cp.attempts > cp.task.retryBudget then 0 else cp.task.retryBudget + 1 - cp.attempts
  }

  /** An uncertain delivery still has to be confirmed. */
  function Uncertain(cp: Checkpoint): nat {
    if cp.state.StateDeliveryUncertain? then 1 else 0
  }

  function Ahead(cp: Checkpoint, clock: int): nat {
    if cp.NotYetDue(clock) then 1 else 0
  }

  /** A Step whose store and lease worked returns a finished record from disk, and pays for errors
      with an attempt. */
  predicate StepPays(start: Checkpoint, disk: Checkpoint, out: Outcome) {
    && out.cp.Some? && disk.task == start.task && start.attempts <= disk.attempts
    && (out.cp.value.Terminal() ==> out.cp.value == disk)
    && (out.err.Some? && !out.cp.value.Terminal()
        ==> disk.attempts == start.attempts + 1 && disk.attempts <= disk.task.retryBudget)
  }

  lemma StepFacts(origin: Origin, disk: Checkpoint, out: Outcome, stalled: bool)
    requires StepResult(origin, disk, out, stalled) && CheckpointOk(origin.disk) && CheckpointOk(disk)
    ensures StepPays(origin.disk, disk, out)
  {
  }

  /** A Cancel of another dispatcher costs no attempt. */
  lemma CancelFacts(origin: Origin, disk: Checkpoint, out: Outcome)
    requires CancelResult(origin, disk, out)
    ensures disk.task == origin.disk.task && disk.attempts == origin.disk.attempts
  {
  }

  /** The end is closer: fewer attempts are left, or as many and the delivery is no longer uncertain,
      or nothing has changed but the round ends asleep until the deadline on disk. */
  predicate Closer(start: Checkpoint, clock: int, disk: Checkpoint, cp: Checkpoint) {
    || AttemptsLeft(disk) < AttemptsLeft(start)
    || (AttemptsLeft(disk) == AttemptsLeft(start) && Uncertain(disk) < Uncertain(start))
    || (disk == start && Ahead(disk, clock) == 1 && cp.nextRetryAt == disk.nextRetryAt && HasDeadline(cp))
  }

  /** Past the deadline the checkpoint on disk is due. */
  lemma Woken(disk: Checkpoint, cp: Checkpoint, clock: int)
    requires cp.nextRetryAt == disk.nextRetryAt
    ensures !cp.NotYetDue(clock) ==> Ahead(disk, clock) == 0
  {
  }

  /** A round in which AO did not stall, and which did not end the loop, comes closer. */
  lemma RoundProgress(origin: Origin, disk: Checkpoint, out: Outcome)
    requires StepResult(origin, disk, out, false) && CheckpointOk(origin.disk) && CheckpointOk(disk)
    requires !out.cp.value.Terminal()
    ensures Closer(origin.disk, origin.clock, disk, out.cp.value)
  {
  }

  /** The outcome of a Step that ends the loop. */
  predicate EndsLoop(stepped: Outcome) {
    stepped.cp.Some? && stepped.cp.value.Terminal()
  }

  /** The latest checkpoint that any of the Steps has returned. */
  function LatestCheckpoint(steps: seq<Outcome>): Option<Checkpoint> {
    if steps == [] then None
    else if steps[|steps| - 1].cp.Some? then steps[|steps| - 1].cp
    else LatestCheckpoint(steps[..|steps| - 1])
  }

  /** None of the Steps ends the loop. */
  predicate AllGoOn(steps: seq<Outcome>) {
    forall k :: 0 <= k < |steps| ==> !EndsLoop(steps[k])
  }

  /** The Steps of a loop that may have ended with the last of them. */
  predicate EndsAtLast(steps: seq<Outcome>) {
    steps == [] || AllGoOn(steps[..|steps| - 1])
  }

  lemma OneMoreStep(steps: seq<Outcome>, out: Outcome)
    requires AllGoOn(steps)
    ensures EndsAtLast(steps) && EndsAtLast(steps + [out])
    ensures (steps + [out])[|steps|] == out && |steps + [out]| == |steps| + 1
    ensures !EndsLoop(out) ==> AllGoOn(steps + [out])
    ensures LatestCheckpoint(steps + [out]) == if out.cp.Some? then out.cp else LatestCheckpoint(steps)
  {
    assert (steps + [out])[..|steps|] == steps;
  }

  lemma NoStepYet()
    ensures AllGoOn([]) && EndsAtLast([]) && LatestCheckpoint([]) == None
  {
  }

  /** The loop can end with a record that is not on disk: here the artifact cannot be read, saving
      the blocked record fails, and the file still says PENDING. */
  lemma EndsWithUnsavedRecord(delay: int, disk: Checkpoint, broken: Error, full: Error) returns (blocked: Checkpoint)
    requires Fresh(disk)
    ensures blocked == Blocked(disk.(lastObserved := 0), ArtifactReadFailed)
    ensures BodyResume(delay, LoadForStep, Loaded(disk)) == ReadClock(disk)
    ensures BodyResume(delay, ReadClock(disk), Time(0)) == ReadArtifact(disk.(lastObserved := 0), 0)
    ensures BodyResume(delay, ReadArtifact(disk.(lastObserved := 0), 0), Failed(broken))
            == SaveAndReturn(ByStep, blocked, Some(broken))
    ensures var ended := BodyResume(delay, SaveAndReturn(ByStep, blocked, Some(broken)), SaveFailed(false, full));
            && ended == Finished(Outcome(Some(blocked), Some(full))) && EndsLoop(ended.out)
            && DiskAfter(disk, ReqSave(blocked), SaveFailed(false, full)) == disk && disk.state.StatePending?
  {
    blocked := Blocked(disk.(lastObserved := 0), ArtifactReadFailed);
  }

  /** `others` bounds how many calls of other dispatchers fall between the rounds of a loop. */
  class Runner {
    const dispatcher: Dispatcher
    const pollInterval: int
    const others: nat

    constructor (dispatcher: Dispatcher, pollInterval: int, others: nat)
      ensures this.dispatcher == dispatcher && this.pollInterval == pollInterval && this.others == others
    {
      this.dispatcher, this.pollInterval, this.others := dispatcher, pollInterval, others;
    }

    /** Some whole Steps and Cancels of other dispatchers on the same checkpoint. */
    method Others(left: nat) returns (rest: nat)
      requires dispatcher.host.Valid() && dispatcher.host.g.phase.Returned?
      modifies dispatcher.host
      ensures dispatcher.host.Valid() && dispatcher.host.g.phase.Returned?
      ensures rest <= left && (rest == left ==> unchanged(dispatcher.host))
      ensures dispatcher.host.faultsLeft <= old(dispatcher.host.faultsLeft)
      ensures dispatcher.host.disk.task == old(dispatcher.host.disk.task)
      ensures dispatcher.host.faultsLeft == old(dispatcher.host.faultsLeft)
              && LeaseUsable(dispatcher.host.cfg, old(dispatcher.host.disk).task)
              ==> dispatcher.host.disk.attempts >= old(dispatcher.host.disk.attempts)
    {
      hide Progress.Ok, CheckpointOk, StepResult, CancelResult;
      var host := dispatcher.host;
      rest := left;
      var more: bool := *;
      if rest == 0 || !more {
        return;
      }
      rest := rest - 1;
      var now := host.Now();
      var cancel: bool := *;
      OkDisk(host.cfg, host.g);
      ghost var before, usable := host.faultsLeft, LeaseUsable(host.cfg, host.disk.task);
      if cancel {
        var stopped := dispatcher.Cancel(now);
        OkDisk(host.cfg, host.g);
        if !host.g.faulted && usable {
          CancelFacts(host.g.origin, host.disk, stopped);
        }
      } else {
        var stepped := dispatcher.Step();
        OkDisk(host.cfg, host.g);
        if !host.g.faulted && usable {
          StepFacts(host.g.origin, host.disk, stepped, host.g.stalled);
        }
      }
      rest := Others(rest);
    }

    /** One Step, with what the loop learns from it. */
    method Round() returns (stepped: Outcome)
      requires dispatcher.host.Valid() && dispatcher.host.g.phase.Returned?
      modifies dispatcher.host
      ensures dispatcher.host.Valid() && dispatcher.host.g.phase.Returned?
      ensures dispatcher.host.disk.task == old(dispatcher.host.disk).task
      ensures dispatcher.host.faultsLeft <= old(dispatcher.host.faultsLeft)
      ensures EndsLoop(stepped) ==> (stepped.cp == Some(dispatcher.host.disk) <==> dispatcher.host.g.saved)
      ensures !LeaseUsable(dispatcher.host.cfg, old(dispatcher.host.disk).task)
              ==> stepped.cp.None? && stepped.err.Some?
      ensures dispatcher.host.faultsLeft == old(dispatcher.host.faultsLeft)
              && LeaseUsable(dispatcher.host.cfg, old(dispatcher.host.disk).task)
              ==> StepPays(old(dispatcher.host.disk), dispatcher.host.disk, stepped)
      ensures dispatcher.host.faultsLeft == old(dispatcher.host.faultsLeft)
              && LeaseUsable(dispatcher.host.cfg, old(dispatcher.host.disk).task) && !EndsLoop(stepped)
              ==> || dispatcher.host.stallsLeft < old(dispatcher.host.stallsLeft)
                  || (&& dispatcher.host.stallsLeft == old(dispatcher.host.stallsLeft)
                      && Closer(old(dispatcher.host.disk), old(dispatcher.host.clock), dispatcher.host.disk,
                                stepped.cp.value))
    {
      hide Progress.Ok, Progress.After, StepResult, CheckpointOk, AttemptsLeft, Uncertain, LeaseUsable, Lawful, Current;
      var host := dispatcher.host;
      OkDisk(host.cfg, host.g);
      ghost var usable := LeaseUsable(host.cfg, host.disk.task);
      stepped := dispatcher.Step();
      OkDisk(host.cfg, host.g);
      if !host.g.faulted && usable {
        StepFacts(host.g.origin, host.disk, stepped, host.g.stalled);
        if !host.g.stalled && !EndsLoop(stepped) {
          RoundProgress(host.g.origin, host.disk, stepped);
        }
      }
    }

    /** Steps until the task is terminal. The record it ends with is on disk exactly when its latest
        save put it there. `failures` counts the Steps that failed and left the task alive. */
    method Run() returns (out: Outcome, ghost failures: nat, ghost steps: seq<Outcome>)
      requires dispatcher.host.Valid() && dispatcher.host.g.phase.Returned?
      modifies dispatcher.host
      ensures dispatcher.host.Valid()
      ensures out.cp == LatestCheckpoint(steps)
      ensures out.err.None? ==> steps != [] && steps[|steps| - 1].cp == out.cp
      ensures out.err.Some? && !dispatcher.host.interruptible
              ==> steps != [] && steps[|steps| - 1].cp.None? && steps[|steps| - 1].err == out.err
      ensures EndsAtLast(steps)
      ensures out.err.None? ==> EndsLoop(out) && (out.cp == Some(dispatcher.host.disk) <==> dispatcher.host.g.saved)
      ensures dispatcher.host.faultsLeft == old(dispatcher.host.faultsLeft)
              && LeaseUsable(dispatcher.host.cfg, old(dispatcher.host.disk).task)
              ==> && (out.err.None? ==> out.cp == Some(dispatcher.host.disk))
                  && (!dispatcher.host.interruptible ==> out.err.None?)
                  && (failures == 0
                      || failures <= old(dispatcher.host.disk).task.retryBudget - old(dispatcher.host.disk).attempts)
    {
      hide Host.Valid, Progress.Ok, Progress.After, StepResult, CheckpointOk, AttemptsLeft, Uncertain, Ahead,
        HasDeadline, LeaseUsable, Lawful, Current, AllGoOn, EndsAtLast, LatestCheckpoint, Sleeps;
      var host := dispatcher.host;
      ghost var task, first, faults := host.disk.task, host.disk.attempts, host.faultsLeft;
      ghost var reliable := LeaseUsable(host.cfg, task);
      var lastCP: Option<Checkpoint> := None;
      failures, steps := 0, [];
      NoStepYet();
      var left := others;
      while true
        invariant lastCP == LatestCheckpoint(steps) && AllGoOn(steps) && EndsAtLast(steps)
        invariant host.Valid() && host.g.phase.Returned? && host.faultsLeft <= faults && host.disk.task == task
        invariant host.faultsLeft == faults && reliable
                  ==> && first <= host.disk.attempts
                      && (failures == 0 || first + failures <= host.disk.attempts)
                      && (failures == 0 || first + failures <= task.retryBudget)
        decreases left, host.faultsLeft, host.stallsLeft, AttemptsLeft(host.disk), Uncertain(host.disk),
                  Ahead(host.disk, host.clock)
      {
        var ended := host.ContextError();
        if ended.Some? {
          return Outcome(lastCP, ended), failures, steps;
        }
        left := Others(left);
        var stepped := Round();
        OneMoreStep(steps, stepped);
        steps := steps + [stepped];
        if stepped.cp.Some? {
          lastCP := stepped.cp;
          if EndsLoop(stepped) {
            return Outcome(stepped.cp, None), failures, steps;
          }
        }
        if stepped.err.Some? {
          failures := failures + 1;
        }
        ended := host.ContextError();
        if ended.Some? {
          return Outcome(lastCP, ended), failures, steps;
        }
        var stop := Wait(stepped);
        if stop.Some? {
          return Outcome(lastCP, stop), failures, steps;
        }
        if stepped.cp.Some? && stepped.cp.value.nextRetryAt == host.disk.nextRetryAt {
          Woken(host.disk, stepped.cp.value, host.clock);
        }
      }
    }

    /** What there is to sleep at `now`: until the deadline if one lies ahead; otherwise for the poll
        interval if there is one and the task is alive, and not behind an error without a checkpoint. */
    function Sleeps(now: int, stepped: Outcome): seq<int> {
      match stepped.cp
      case None => []
      case Some(cp) =>
        if HasDeadline(cp) && cp.NotYetDue(now) then [cp.nextRetryAt.value - now]
        else if pollInterval > 0 && !cp.state.StateCompleted? && !cp.state.StateBlocked? && !cp.state.StateCancelled?
                && !cp.state.StateCancelUnconfirmed? then [pollInterval]
        else []
    }

    /** Sleeps until the deadline of the checkpoint returned, or else for the poll interval; stops
        the loop when there is no checkpoint at all. */
    method Wait(stepped: Outcome) returns (stop: Option<Error>)
      requires dispatcher.host.Valid()
      modifies dispatcher.host`clock, dispatcher.host`slept
      ensures dispatcher.host.Valid() && dispatcher.host.clock >= old(dispatcher.host.clock)
      ensures exists now :: old(dispatcher.host.clock) <= now <= dispatcher.host.clock
                            && dispatcher.host.slept == old(dispatcher.host.slept) + Sleeps(now, stepped)
      ensures stop.Some? ==> dispatcher.host.interruptible || (stepped.cp.None? && stop == stepped.err)
      ensures stop.None? ==> !(stepped.cp.None? && stepped.err.Some?)
      ensures stop.None? && stepped.cp.Some? && HasDeadline(stepped.cp.value)
              ==> !stepped.cp.value.NotYetDue(dispatcher.host.clock)
    {
      var host := dispatcher.host;
      var now := host.Now();
      var waited := false;
      if stepped.cp.Some? && HasDeadline(stepped.cp.value) {
        var delay := stepped.cp.value.nextRetryAt.value - now;
        if delay > 0 {
          waited := true;
          stop := host.Sleep(delay);
          assert host.slept == old(host.slept) + Sleeps(now, stepped);
          if stop.Some? {
            return;
          }
        }
      }
      if !waited {
        if stepped.err.Some? && stepped.cp.None? {
          assert host.slept == old(host.slept) + Sleeps(now, stepped);
          return stepped.err;
        }
        if pollInterval > 0 && stepped.cp.Some? && IsWaitingOrDelivered(stepped.cp.value.state) {
          stop := host.Sleep(pollInterval);
          assert host.slept == old(host.slept) + Sleeps(now, stepped);
          if stop.Some? {
            return;
          }
        }
      }
      assert host.slept == old(host.slept) + Sleeps(now, stepped);
      stop := None;
    }
  }
}
