/** The dispatcher as the source writes it: checkpoint fields assigned step by step and saved in
    between, against a host that performs the I/O. */
module DispatcherClass {
  import opened CheckpointModel
  import opened DispatcherMachine
  import opened DeliveryHistory
  import opened LocalSafety
  import opened StepAccounting

  /** A checkpoint file, its history, and where the one process working on it stands: how its
      current call began, whether the store or the lease has failed it since, and whether AO has
      answered it with a delivery on its way. */
  datatype Progress = Progress(
    cell: Cell,
    phase: Phase,
    origin: Origin,
    faulted: bool,
    stalled: bool,
    saved: bool)
  {
    ghost predicate Ok(cfg: Config) {
      && StoreInv(cell)
      && cell.disk.task == origin.disk.task && OnTime(cfg.Delay(), cell.disk)
      && (phase.AcquireLoad? ==> cfg.leased)
      && (phase.Running? ==> BodyInv(cfg.Delay(), cell, phase.body))
      && (!faulted && LeaseUsable(cfg, origin.disk.task) ==> Account())
      && (origin.call.StepCall? ==> EndsSaved())
    }

    /** A finished record that a Step returns is on disk exactly when its latest save put it there. */
    ghost predicate EndsSaved() {
      match phase
      case AcquireLoad(call) => call.StepCall?
      case AcquireCreate(call, _) => call.StepCall?
      case AcquireWrite(call, _) => call.StepCall?
      case Running(_, body) => CallerOf(body).ByStep?
      case Returned(out) => SavedAs(out)
      case ReleaseRead(_, out) => SavedAs(out)
      case ReleaseRemove(_, out) => SavedAs(out)
      case _ => true
    }

    ghost predicate SavedAs(out: Outcome) {
      out.cp.Some? && out.cp.value.Terminal() ==> (saved <==> out.cp.value == cell.disk)
    }

    ghost predicate Account() {
      match phase
      case Running(_, body) => CallInv(origin, cell.disk, body, stalled)
      case Returned(out) => CallResult(origin, cell.disk, out, stalled)
      case ReleaseRead(_, out) => CallResult(origin, cell.disk, out, stalled)
      case ReleaseRemove(_, out) => CallResult(origin, cell.disk, out, stalled)
      case AcquireLoad(call) => cell.disk == origin.disk && call == origin.call
      case AcquireCreate(call, _) => cell.disk == origin.disk && call == origin.call
      case AcquireWrite(call, _) => cell.disk == origin.disk && call == origin.call
      case _ => false
    }

    ghost function After(cfg: Config, ans: Answer): Progress
      requires Fits(PhaseRequest(cfg, phase), ans)
    {
      var req := PhaseRequest(cfg, phase);
      Progress(
        if phase.Running? then CellAfter(cfg.Delay(), cell, phase.body, ans) else cell,
        PhaseResume(cfg, phase, ans),
        origin,
        faulted || IsFault(req, ans),
        stalled || Stalls(ans),
        if req.ReqSave? then DiskAfter(cell.disk, req, ans) == req.cp else saved)
    }
  }

  /** A deadline lies behind the observation by the delay. */
  predicate OnTime(delay: int, cp: Checkpoint) {
    cp.nextRetryAt.Some? ==> cp.nextRetryAt.value == cp.lastObserved + delay
  }

  /** How long a dispatcher waits: the configured time if it is positive, a minute otherwise. */
  predicate KeepsDelay(retryDelay: int, cp: Checkpoint) {
    cp.nextRetryAt.Some?
    ==> cp.nextRetryAt.value - cp.lastObserved == if retryDelay > 0 then retryDelay else 60_000_000_000
  }

  lemma DelayIsConfigured(cfg: Config, cp: Checkpoint)
    requires OnTime(cfg.Delay(), cp)
    ensures KeepsDelay(cfg.retryDelay, cp)
  {
  }

  /** What reaches the file keeps the delay. */
  lemma SavedOnTime(delay: int, cell: Cell, body: Body, ans: Answer)
    requires Consistent(delay, cell, body) && Honest(cell.disk, BodyRequest(body), ans) && OnTime(delay, cell.disk)
    ensures OnTime(delay, CellAfter(delay, cell, body, ans).disk)
  {
    if BodyRequest(body).ReqSave? {
      SaveInOrder(delay, cell, body);
    }
    hide Consistent;
  }

  lemma SaveInOrder(delay: int, cell: Cell, body: Body)
    requires Consistent(delay, cell, body) && BodyRequest(body).ReqSave? && OnTime(delay, cell.disk)
    ensures OnTime(delay, BodyRequest(body).cp)
  {
  }

  /** A dispatcher without a lease, or with all the names a lease needs. */
  predicate LeaseUsable(cfg: Config, task: Task) {
    cfg.leased ==> task.runOwner != "" && cfg.ownerID != "" && task.taskID != ""
  }

  predicate IsFault(req: Request, ans: Answer) {
    || StoreFault(req, ans)
    || ((req.ReqCreateLease? || req.ReqWriteLease?) && !ans.Ack?)
  }

  lemma CellKept(cfg: Config, g: Progress, ans: Answer)
    requires g.Ok(cfg) && g.phase.Running? && Honest(g.cell.disk, PhaseRequest(cfg, g.phase), ans)
    ensures var cell := CellAfter(cfg.Delay(), g.cell, g.phase.body, ans);
            && StoreInv(cell) && cell.disk.task == g.origin.disk.task && OnTime(cfg.Delay(), cell.disk)
            && BodyInv(cfg.Delay(), cell, BodyResume(cfg.Delay(), g.phase.body, ans))
  {
    hide BodyResume, HistAfter;
    SavedOnTime(cfg.Delay(), g.cell, g.phase.body, ans);
    BodyStep(cfg.Delay(), g.cell, g.phase.body, ans);
  }

  lemma AnswerKeepsAccount(cfg: Config, g: Progress, ans: Answer)
    requires g.Ok(cfg) && Honest(g.cell.disk, PhaseRequest(cfg, g.phase), ans)
    requires ans.Time? ==> ans.now >= g.origin.clock
    requires !g.After(cfg, ans).faulted && LeaseUsable(cfg, g.origin.disk.task)
    ensures g.After(cfg, ans).Account()
  {
    hide StoreInv, BodyInv, CallInv, CallResult, BodyResume, HistAfter;
    match g.phase
    case Running(_, body) =>
      CallAccountKept(cfg.Delay(), g.origin, g.cell.disk, body, ans, g.stalled);
      FinishedAccount(g.origin, DiskAfter(g.cell.disk, BodyRequest(body), ans),
                      BodyResume(cfg.Delay(), body, ans), g.stalled || Stalls(ans));
    case AcquireWrite(call, _) => FinishedAccount(g.origin, g.cell.disk, Start(call), g.stalled);
    case _ =>
  }

  lemma FinishedAccount(origin: Origin, disk: Checkpoint, body: Body, stalled: bool)
    ensures body.Finished? && CallInv(origin, disk, body, stalled) ==> CallResult(origin, disk, body.out, stalled)
    ensures body == Start(origin.call) && disk == origin.disk ==> CallInv(origin, disk, body, stalled)
  {
  }

  /** What is on disk behind a Send, by the error that came back: none, a contaminated session, a
      definite refusal, or any other. */
  predicate RepliedTo(delay: int, sent: Checkpoint, now: int, disk: Checkpoint, err: Option<Error>) {
    if err.None? then disk == DeliveredAs(sent, disk.aoTurnID)
    else if err.value.ErrSessionContaminated? then disk == Blocked(sent, SessionContaminated)
    else if sent.attempts >= sent.task.retryBudget then disk == Blocked(sent, RetryBudgetExhausted)
    else if err.value.ErrRequestNotAccepted? then
      disk == sent.(state := StateWaitingRetry, nextRetryAt := Some(now + delay), lastErrorKind := RequestNotAccepted)
    else disk == sent.(state := StateDeliveryUncertain, nextRetryAt := Some(now + delay),
                       lastErrorKind := DeliveryUncertainKind)
  }

  /** What is on disk behind a recovery: one that is not confirmed costs an attempt, and a receipt that
      does not confirm is told apart from a failed call by its reason. */
  predicate Recovered(delay: int, loaded: Checkpoint, now: int, unconfirmed: ErrorKind, disk: Checkpoint,
                      err: Option<Error>) {
    var tried := loaded.(attempts := loaded.attempts + 1);
    if err.None? then disk == DeliveredAs(loaded, disk.aoTurnID)
    else if err.value.ErrSessionContaminated? then disk == Blocked(loaded, SessionContaminated)
    else if tried.attempts >= tried.task.retryBudget then disk == Blocked(tried, RetryBudgetExhausted)
    else
      && disk == tried.(state := StateDeliveryUncertain, nextRetryAt := Some(now + delay),
                        lastErrorKind := disk.lastErrorKind)
      && (|| disk.lastErrorKind.DeliveryUncertainKind?
          || (err.value.ErrDeliveryUncertain? && disk.lastErrorKind == unconfirmed))
  }

  lemma LiveAtWork(delay: int, cell: Cell, body: Body)
    requires Consistent(delay, cell, body) && (body.ObserveDelivery? || body.WriteAhead?)
    ensures !body.cp.Terminal()
  {
  }

  lemma ObservationEndsLive(delay: int, cp: Checkpoint, now: int, ans: Answer)
    requires !cp.Terminal() && (ans.Observed? || ans.Failed?)
    ensures var next := AfterObserve(delay, cp, now, ans);
            if next.Finished? then next.out.cp == Some(cp) else CallerOf(next).ByStep?
  {
  }

  /** A Step ends with a finished record only by saving it. */
  lemma StepEndsSaved(delay: int, cell: Cell, body: Body, ans: Answer)
    requires Consistent(delay, cell, body) && Honest(cell.disk, BodyRequest(body), ans) && CallerOf(body).ByStep?
    ensures var next := BodyResume(delay, body, ans);
            if !next.Finished? then CallerOf(next).ByStep?
            else next.out.cp.Some? && next.out.cp.value.Terminal()
                 ==> BodyRequest(body) == ReqSave(next.out.cp.value)
  {
    hide Consistent, AfterObserve;
    if body.ObserveDelivery? || body.WriteAhead? {
      LiveAtWork(delay, cell, body);
    }
    if body.ObserveDelivery? {
      ObservationEndsLive(delay, body.cp, body.now, ans);
    }
  }

  lemma AnswerKeepsSaved(cfg: Config, g: Progress, ans: Answer)
    requires g.Ok(cfg) && Honest(g.cell.disk, PhaseRequest(cfg, g.phase), ans) && g.origin.call.StepCall?
    ensures g.After(cfg, ans).EndsSaved()
  {
    hide StoreInv, BodyInv, CallInv, CallResult, BodyResume, HistAfter, Progress.Account;
    if g.phase.Running? {
      StepEndsSaved(cfg.Delay(), g.cell, g.phase.body, ans);
    }
  }

  lemma StartKept(delay: int, cell: Cell, call: Call)
    ensures BodyInv(delay, cell, Start(call))
  {
  }

  lemma AnswerKeepsOk(cfg: Config, g: Progress, ans: Answer)
    requires g.Ok(cfg) && Honest(g.cell.disk, PhaseRequest(cfg, g.phase), ans)
    requires ans.Time? ==> ans.now >= g.origin.clock
    ensures g.After(cfg, ans).Ok(cfg)
  {
    hide StoreInv, BodyInv, CallInv, CallResult, BodyResume, HistAfter, Progress.Account, Progress.EndsSaved;
    if g.phase.Running? {
      CellKept(cfg, g, ans);
    } else if g.phase.AcquireWrite? {
      StartKept(cfg.Delay(), g.cell, g.phase.call);
    }
    if !g.After(cfg, ans).faulted && LeaseUsable(cfg, g.origin.disk.task) {
      AnswerKeepsAccount(cfg, g, ans);
    }
    if g.origin.call.StepCall? {
      AnswerKeepsSaved(cfg, g, ans);
    }
  }

  lemma BeginOk(cfg: Config, g: Progress, origin: Origin)
    requires g.Ok(cfg) && origin.disk == g.cell.disk
    ensures Progress(g.cell, Invoke(cfg, origin.call), origin, false, false, true).Ok(cfg)
  {
  }

  lemma AfterFields(cfg: Config, g: Progress, ans: Answer)
    requires Fits(PhaseRequest(cfg, g.phase), ans)
    ensures var h, req := g.After(cfg, ans), PhaseRequest(cfg, g.phase);
            && h.cell.disk == DiskAfter(g.cell.disk, req, ans)
            && h.phase == PhaseResume(cfg, g.phase, ans) && h.origin == g.origin
            && h.faulted == (g.faulted || IsFault(req, ans)) && h.stalled == (g.stalled || Stalls(ans))
  {
    hide PhaseResume, HistAfter;
  }

  lemma OkDisk(cfg: Config, g: Progress)
    requires g.Ok(cfg)
    ensures CheckpointOk(g.cell.disk) && g.cell.disk.task == g.origin.disk.task
  {
  }

  /** What is about to be saved is valid. */
  lemma SavesValid(cfg: Config, g: Progress)
    requires g.Ok(cfg)
    ensures g.cell.disk.Valid()
    ensures PhaseRequest(cfg, g.phase).ReqSave? ==> PhaseRequest(cfg, g.phase).cp.Valid()
  {
  }

  datatype Exchange = Exchange(req: Request, ans: Answer)

  /** One process's view of the outside: the checkpoint file, the clock, AO, the artifact reader and
      the lease directory, all answering as they like. A request is accepted only when it is the
      automaton's next one. `faultsLeft` and `stallsLeft` bound what the environment may still do
      against a caller: store or lease failures, and answers that a delivery is on its way. */
  class Host {
    const cfg: Config
    const interruptible: bool
    var disk: Checkpoint
    var clock: int
    var faultsLeft: nat
    var stallsLeft: nat
    ghost var g: Progress
    /** What has been asked and answered. */
    ghost var asked: seq<Exchange>
    /** How long the sleeps were meant to be. */
    ghost var slept: seq<int>

    ghost predicate Valid()
      reads this
    {
      && g.Ok(cfg) && g.cell.disk == disk
      && clock >= g.origin.clock
      && faultsLeft <= g.origin.faults && (g.faulted <==> faultsLeft < g.origin.faults)
      && stallsLeft <= g.origin.stalls && (g.stalled <==> stallsLeft < g.origin.stalls)
    }

    /** A process that finds a fresh checkpoint. */
    constructor (cfg: Config, interruptible: bool, cp: Checkpoint, faults: nat, stalls: nat)
      requires Fresh(cp)
      ensures Valid() && g.phase.Returned? && g.cell == Cell(cp, Genesis(cp))
      ensures this.cfg == cfg && this.interruptible == interruptible
      ensures disk == cp && faultsLeft == faults && stallsLeft == stalls
    {
      this.cfg, this.interruptible := cfg, interruptible;
      disk, clock, faultsLeft, stallsLeft := cp, 0, faults, stalls;
      // No call has been made yet, so nothing is promised about the latest one.
      g := Progress(Cell(cp, Genesis(cp)), Returned(Outcome(None, None)),
                    Origin(StepCall, cp, 0, faults + 1, stalls), true, false, true);
    }

    ghost method Begin(call: Call)
      requires Valid() && g.phase.Returned?
      modifies `g
      ensures Valid()
      ensures g == Progress(old(g).cell, Invoke(cfg, call), Origin(call, disk, clock, faultsLeft, stallsLeft),
                            false, false, true)
    {
      var origin := Origin(call, disk, clock, faultsLeft, stallsLeft);
      BeginOk(cfg, g, origin);
      g := Progress(g.cell, Invoke(cfg, call), origin, false, false, true);
    }

    /** Performs the automaton's next request. The answer is any the request can get. */
    method Do(req: Request) returns (ans: Answer)
      requires Valid() && req == PhaseRequest(cfg, g.phase) && !req.ReqNothing?
      modifies this
      ensures Valid() && Honest(old(disk), req, ans)
      ensures g == old(g).After(cfg, ans) && asked == old(asked) + [Exchange(req, ans)]
      ensures g.phase == PhaseResume(cfg, old(g.phase), ans) && g.origin == old(g.origin)
      ensures disk == DiskAfter(old(disk), req, ans)
      ensures faultsLeft == old(faultsLeft) - (if IsFault(req, ans) then 1 else 0)
      ensures stallsLeft == old(stallsLeft) - (if Stalls(ans) then 1 else 0)
      ensures clock >= old(clock) && (ans.Time? ==> clock == ans.now)
    {
      hide Progress.Ok, Progress.After, PhaseRequest, PhaseResume;
      SavesValid(cfg, g);
      ans := *;
      if !Acceptable(req, ans) {
        ans := Plain(req);
      }
      AnswerKeepsOk(cfg, g, ans);
      AfterFields(cfg, g, ans);
      g, asked := g.After(cfg, ans), asked + [Exchange(req, ans)];
      faultsLeft := faultsLeft - (if IsFault(req, ans) then 1 else 0);
      stallsLeft := stallsLeft - (if Stalls(ans) then 1 else 0);
      if req.ReqSave? && Replaces(ans) {
        disk := req.cp;
      }
      if ans.Time? {
        clock := ans.now;
      }
    }

    /** A look at the clock outside any call. */
    method Now() returns (now: int)
      requires Valid()
      modifies `clock
      ensures Valid() && clock == now && now >= old(clock)
    {
      now := *;
      if now < clock {
        now := clock;
      }
      clock := now;
    }

    /** Sleeps for `d`, unless the context ends first. */
    method Sleep(d: int) returns (err: Option<Error>)
      requires Valid()
      modifies `clock, `slept
      ensures slept == old(slept) + [d]
      ensures Valid() && clock >= old(clock)
      ensures err.None? ==> clock >= old(clock) + d
      ensures err.Some? ==> interruptible
    {
      slept := slept + [d];
      err := ContextError();
      if err.None? && d > 0 {
        clock := clock + d;
      }
    }

    /** The context's error, if it has ended. */
    method ContextError() returns (err: Option<Error>)
      ensures err.Some? ==> interruptible
    {
      err := *;
      if !interruptible {
        err := None;
      }
    }

    predicate Acceptable(req: Request, ans: Answer)
      reads this
    {
      && Honest(disk, req, ans)
      && (IsFault(req, ans) ==> faultsLeft > 0)
      && (Stalls(ans) ==> stallsLeft > 0)
      && (ans.Time? ==> ans.now >= clock)
    }

    /** An answer that is always possible. */
    function Plain(req: Request): (ans: Answer)
      requires !req.ReqNothing? && disk.Valid() && (req.ReqSave? ==> req.cp.Valid())
      reads this
      ensures Acceptable(req, ans)
    {
      match req
      case ReqLoad => Loaded(disk)
      case ReqNow => Time(clock)
      case ReqArtifact(_) => Failed(ErrExternal(0))
      case ReqObserve(_, _) => Failed(ErrExternal(0))
      case ReqRecoverOnly(_, _) => Failed(ErrExternal(0))
      case ReqSendReply(_) => Failed(ErrExternal(0))
      case ReqReadLease(_) => Failed(ErrExternal(0))
      case _ => Ack
    }
  }

  /** What is asked of the lease directory on the way in, and the error that comes of it. */
  predicate AsksForLease(cfg: Config, task: Task, asked: seq<Exchange>, err: Option<Error>) {
    var name := KeyOf(task).Name();
    && asked != [] && asked[0].req == ReqCreateLease(name)
    && match asked[0].ans
       case LeaseExists => |asked| == 1 && err == Some(ErrLeaseHeld)
       case Failed(cause) => |asked| == 1 && err == Some(cause)
       case Ack => AsksToWrite(cfg, KeyOf(task), asked[1..], err)
       case _ => false
  }

  predicate AsksToWrite(cfg: Config, key: LeaseKey, asked: seq<Exchange>, err: Option<Error>) {
    && asked != [] && asked[0].req == ReqWriteLease(key.Name(), LeaseRecord(cfg.ownerID, key.taskID, cfg.pid))
    && match asked[0].ans
       case Ack => |asked| == 1 && err.None?
       case Failed(cause) => |asked| == 2 && asked[1].req == ReqRemoveLease(key.Name()) && err == Some(cause)
       case _ => false
  }

  /** Behind a read of the lease its removal is asked for exactly when the record is one's own. */
  predicate GivesBack(cfg: Config, key: LeaseKey, answer: Answer, removed: seq<Exchange>) {
    var own := answer.LeaseContent? && answer.content.Some?
               && answer.content.value.ownerID == cfg.ownerID && answer.content.value.taskID == key.taskID;
    if own then |removed| == 1 && removed[0].req == ReqRemoveLease(key.Name()) else removed == []
  }

  class Dispatcher {
    const host: Host

    constructor (host: Host)
      ensures this.host == host
    {
      this.host := host;
    }

    /** One Step. Its writes and calls are in order, whatever fails. With a working store and lease it
        returns what is on disk, or the checkpoint it found with its deadline ahead, and every error
        is paid for. */
    method Step() returns (out: Outcome)
      requires host.Valid() && host.g.phase.Returned?
      modifies host
      ensures host.Valid() && host.g.phase == Returned(out)
      ensures Lawful(host.g.cell.hist) && Current(host.g.cell.hist) == host.disk
      ensures host.g.origin == Origin(StepCall, old(host.disk), old(host.clock), old(host.faultsLeft),
                                      old(host.stallsLeft))
      ensures !host.g.faulted && LeaseUsable(host.cfg, old(host.disk).task)
              ==> StepResult(host.g.origin, host.disk, out, host.g.stalled)
      ensures out.cp.Some? && out.cp.value.Terminal() ==> (host.g.saved <==> out.cp.value == host.disk)
      ensures KeepsDelay(host.cfg.retryDelay, host.disk)
      ensures !LeaseUsable(host.cfg, old(host.disk).task) ==> out.cp.None? && out.err.Some?
    {
      host.Begin(StepCall);
      var key, err := Acquire(StepCall);
      if err.Some? {
        out := Outcome(None, err);
      } else {
        out := StepLocked(key);
        Release(key, out);
      }
      DelayIsConfigured(host.cfg, host.disk);
    }

    /** One Cancel. Its writes and calls are in order, whatever fails. With a working store and lease
        the task is out of reach afterwards, what is on disk is returned, and there is an error
        exactly when the stop is not confirmed. */
    method Cancel(now: int) returns (out: Outcome)
      requires host.Valid() && host.g.phase.Returned?
      modifies host
      ensures host.Valid() && host.g.phase == Returned(out)
      ensures Lawful(host.g.cell.hist) && Current(host.g.cell.hist) == host.disk
      ensures host.g.origin == Origin(CancelCall(now), old(host.disk), old(host.clock), old(host.faultsLeft),
                                      old(host.stallsLeft))
      ensures !host.g.faulted && LeaseUsable(host.cfg, old(host.disk).task)
              ==> CancelResult(host.g.origin, host.disk, out)
      ensures !LeaseUsable(host.cfg, old(host.disk).task) ==> out.cp.None? && out.err.Some?
    {
      host.Begin(CancelCall(now));
      var key, err := Acquire(CancelCall(now));
      if err.Some? {
        out := Outcome(None, err);
      } else {
        out := CancelLocked(key, now);
        Release(key, out);
      }
    }

    method Acquire(call: Call) returns (key: Option<LeaseKey>, err: Option<Error>)
      requires host.Valid() && host.g.phase == Invoke(host.cfg, call)
      modifies host
      ensures host.Valid() && host.g.origin == old(host.g.origin)
      ensures err.None? ==> host.g.phase == Running(key, Start(call))
      ensures err.None? && host.cfg.leased ==> key == Some(KeyOf(old(host.disk).task))
      ensures err.Some? ==> host.g.phase == Returned(Outcome(None, err))
      ensures !LeaseUsable(host.cfg, old(host.disk).task) ==> err.Some?
    {
      hide Host.Valid, Progress.After, BodyResume, AfterUnlockedLoad;
      key, err := None, None;
      if !host.cfg.leased {
        return;
      }
      var loaded := host.Do(ReqLoad);
      if loaded.Failed? {
        return None, Some(loaded.err);
      }
      key, err := AcquireFile(call, loaded.cp);
    }

    /** The lease's own part: the exclusive create, the write, and the removal when the write fails. */
    method AcquireFile(call: Call, cp: Checkpoint) returns (key: Option<LeaseKey>, err: Option<Error>)
      requires host.Valid() && host.cfg.leased && host.g.phase == AfterUnlockedLoad(host.cfg, call, cp)
      modifies host
      ensures host.Valid() && host.g.origin == old(host.g.origin)
      ensures err.None? ==> key == Some(KeyOf(cp.task)) && host.g.phase == Running(key, Start(call))
      ensures err.Some? ==> host.g.phase == Returned(Outcome(None, err))
      ensures !LeaseUsable(host.cfg, cp.task) ==> err.Some? && host.asked == old(host.asked)
      ensures LeaseUsable(host.cfg, cp.task)
              ==> && |old(host.asked)| <= |host.asked| && host.asked[..|old(host.asked)|] == old(host.asked)
                  && AsksForLease(host.cfg, cp.task, host.asked[|old(host.asked)|..], err)
    {
      hide Host.Valid, Progress.After, BodyResume, LeaseKey.Name, AsksToWrite;
      key, err := None, None;
      var task := cp.task;
      if task.runOwner == "" || host.cfg.ownerID == "" || task.taskID == "" {
        return None, Some(ErrExternal(0));
      }
      var lease := KeyOf(task);
      var created := host.Do(ReqCreateLease(lease.Name()));
      if created.LeaseExists? {
        return None, Some(ErrLeaseHeld);
      }
      if created.Failed? {
        return None, Some(created.err);
      }
      key, err := FillFile(call, lease);
      assert host.asked[|old(host.asked)|..][1..] == host.asked[|old(host.asked)| + 1..];
    }

    /** The write of the record, and the removal of the file when it fails. */
    method FillFile(call: Call, lease: LeaseKey) returns (key: Option<LeaseKey>, err: Option<Error>)
      requires host.Valid() && host.g.phase == AcquireWrite(call, lease)
      modifies host
      ensures host.Valid() && host.g.origin == old(host.g.origin)
      ensures err.None? ==> key == Some(lease) && host.g.phase == Running(key, Start(call))
      ensures err.Some? ==> host.g.phase == Returned(Outcome(None, err))
      ensures |old(host.asked)| <= |host.asked| && host.asked[..|old(host.asked)|] == old(host.asked)
      ensures AsksToWrite(host.cfg, lease, host.asked[|old(host.asked)|..], err)
    {
      hide Host.Valid, Progress.After, BodyResume, LeaseKey.Name;
      key, err := None, None;
      var written := host.Do(ReqWriteLease(lease.Name(), host.cfg.Record(lease)));
      if written.Failed? {
        var _ := host.Do(ReqRemoveLease(lease.Name()));
        return None, Some(written.err);
      }
      key := Some(lease);
    }

    /** The deferred release; its errors are dropped. */
    method Release(key: Option<LeaseKey>, out: Outcome)
      requires host.Valid() && host.g.phase == Leave(key, Finished(out))
      modifies host
      ensures host.Valid() && host.g.origin == old(host.g.origin)
      ensures host.g.phase == Returned(out)
      ensures key.None? ==> host.asked == old(host.asked)
      ensures key.Some?
              ==> exists answer, removed ::
                    && GivesBack(host.cfg, key.value, answer, removed)
                    && host.asked == old(host.asked) + [Exchange(ReqReadLease(key.value.Name()), answer)] + removed
    {
      hide Host.Valid, Progress.After;
      if key.Some? {
        var current := host.Do(ReqReadLease(key.value.Name()));
        if current.LeaseContent? && Holds(host.cfg, key.value, current.content) {
          var gone := host.Do(ReqRemoveLease(key.value.Name()));
          assert GivesBack(host.cfg, key.value, current, [Exchange(ReqRemoveLease(key.value.Name()), gone)]);
        } else {
          assert GivesBack(host.cfg, key.value, current, []);
          assert host.asked == old(host.asked) + [Exchange(ReqReadLease(key.value.Name()), current)] + [];
        }
      }
    }

    method StepLocked(key: Option<LeaseKey>) returns (out: Outcome)
      requires host.Valid() && host.g.phase == Running(key, LoadForStep)
      modifies host
      ensures host.Valid() && host.g.origin == old(host.g.origin)
      ensures host.g.phase == Leave(key, Finished(out))
    {
      hide Host.Valid, Progress.After;
      var loaded := host.Do(ReqLoad);
      if loaded.Failed? {
        return Outcome(None, Some(loaded.err));
      }
      var cp := loaded.cp;
      var reading := host.Do(ReqNow);
      var now := reading.now;
      cp := cp.(lastObserved := now);
      // A finished task only gets a new date; nobody outside is asked about it.
      if cp.Terminal() {
        out := SaveAndReturn(key, ByStep, cp, None);
        return;
      }
      if (cp.state.StateDeliveryUncertain? || cp.state.StateDelivered?) && cp.NotYetDue(now) {
        return Outcome(Some(cp), None);
      }
      var read := host.Do(ReqArtifact(cp.task.artifactPath));
      if read.Failed? {
        out := Block(key, cp, ArtifactReadFailed, read.err);
      } else if read.artifact.sha256 != cp.task.artifactSHA256 {
        out := Block(key, cp, ArtifactChanged, ErrRefused(ArtifactChanged));
      } else if read.artifact.gitHead != cp.task.gitHead {
        out := Block(key, cp, GitHeadChanged, ErrRefused(GitHeadChanged));
      } else if cp.task.sessionBranch != "" && read.artifact.branch != cp.task.sessionBranch {
        out := Block(key, cp, WorktreeBranchMismatch, ErrRefused(WorktreeBranchMismatch));
      } else {
        out := StepObserved(key, cp, now);
      }
    }

    /** The part of Step that asks AO. */
    method StepObserved(key: Option<LeaseKey>, loaded: Checkpoint, now: int) returns (out: Outcome)
      requires host.Valid() && host.g.phase == Running(key, ObserveDelivery(loaded, now))
      modifies host
      ensures host.Valid() && host.g.origin == old(host.g.origin)
      ensures host.g.phase == Leave(key, Finished(out))
    {
      hide Host.Valid, Progress.After;
      var cp := loaded;
      var answer := host.Do(ReqObserve(cp.task.sessionID, cp.aoTurnID));
      if answer.Failed? {
        cp := cp.(attempts := cp.attempts + 1);
        if cp.state.StateDelivered? || cp.state.StateDeliveryUncertain? {
          out := ScheduleReconciliation(key, cp, now, AoObserveFailed, answer.err);
        } else {
          out := ScheduleSendRetry(key, cp, now, AoObserveFailed, answer.err);
        }
        return;
      }
      var obs := answer.obs;
      if !obs.sessionExists {
        out := Block(key, cp, SessionNotFound, ErrRefused(SessionNotFound));
      } else if obs.humanStopped {
        cp := cp.(state := StateCancelled);
        cp := cp.(nextRetryAt := None);
        cp := cp.(lastErrorKind := HumanStop);
        out := SaveAndReturn(key, ByStep, cp, None);
      } else if cp.state.StateDeliveryUncertain? {
        out := RecoverOnly(key, cp, now, DeliveryNotConfirmed);
      } else if cp.state.StateDelivered? && obs.delivery.DeliveryNotFound? {
        out := Block(key, cp, DeliveryReceiptLost, ErrRefused(DeliveryReceiptLost));
      } else {
        match obs.delivery
        case DeliveryCompleted =>
          out := AcceptReceipt(key, ByStep, cp, obs.receipt);
        case DeliveryAccepted =>
          cp := cp.(state := StateDelivered);
          cp := cp.(nextRetryAt := None);
          cp := cp.(lastErrorKind := NoError);
          out := SaveAndReturn(key, ByStep, cp, None);
        case DeliveryReserved =>
          out := RecoverOnly(key, cp, now, DeliveryUncertainKind);
        case DeliveryRejected =>
          out := Block(key, cp, DeliveryRejectedKind, ErrRefused(DeliveryRejectedKind));
        case DeliveryStopped =>
          cp := cp.(state := StateCancelled);
          cp := cp.(nextRetryAt := None);
          cp := cp.(lastErrorKind := HumanStop);
          out := SaveAndReturn(key, ByStep, cp, None);
        case DeliveryNotFound =>
          if cp.state.StateWaitingRetry? && cp.NotYetDue(now) {
            return Outcome(Some(cp), None);
          }
          if cp.attempts >= cp.task.retryBudget {
            out := Block(key, cp, RetryBudgetExhausted, ErrRefused(RetryBudgetExhausted));
          } else {
            out := FirstSend(key, cp, now);
          }
        case DeliveryOther =>
          out := Block(key, cp, UnknownDeliveryState, ErrRefused(UnknownDeliveryState));
      }
    }

    /** Preflight, write ahead, send. */
    method FirstSend(key: Option<LeaseKey>, loaded: Checkpoint, now: int) returns (out: Outcome)
      requires host.Valid() && host.g.phase == Running(key, Preflight(loaded, now))
      modifies host
      ensures host.Valid() && host.g.origin == old(host.g.origin)
      ensures host.g.phase == Leave(key, Finished(out))
      ensures host.faultsLeft == old(host.faultsLeft)
              ==> && out.cp == Some(host.disk)
                  && var delay := host.cfg.Delay();
                     || (out.err.Some? && host.disk == Blocked(loaded, SessionPreflightFailed))
                     || RepliedTo(delay, InFlight(loaded, now + delay), now, host.disk, out.err)
      ensures host.faultsLeft <= old(host.faultsLeft)
    {
      hide Host.Valid, Progress.After, RepliedTo, AfterSend;
      var cp := loaded;
      var ready := host.Do(ReqPreflight(cp.task));
      if ready.Failed? {
        out := Block(key, cp, SessionPreflightFailed, ready.err);
        return;
      }
      cp := cp.(attempts := cp.attempts + 1);
      var next := now + host.cfg.Delay();
      cp := cp.(state := StateDeliveryUncertain);
      cp := cp.(nextRetryAt := Some(next));
      cp := cp.(lastErrorKind := SendInFlight);
      out := SendBehindRecord(key, cp, now);
    }

    /** The record reaches the disk before the Send leaves. */
    method SendBehindRecord(key: Option<LeaseKey>, cp: Checkpoint, now: int) returns (out: Outcome)
      requires host.Valid() && host.g.phase == Running(key, WriteAhead(cp, now))
      modifies host
      ensures host.Valid() && host.g.origin == old(host.g.origin)
      ensures host.g.phase == Leave(key, Finished(out))
      ensures host.faultsLeft == old(host.faultsLeft)
              ==> out.cp == Some(host.disk) && RepliedTo(host.cfg.Delay(), cp, now, host.disk, out.err)
      ensures host.faultsLeft <= old(host.faultsLeft)
    {
      hide Host.Valid, Progress.After, RepliedTo, AfterSend;
      var saved := host.Do(ReqSave(cp));
      if saved.SaveFailed? {
        return Outcome(Some(cp), Some(saved.err));
      }
      var _ := host.Do(ReqSend(cp.task.sessionID, cp.task.deliveryID, cp.task.nextAction, cp.attempts));
      out := AwaitReply(key, cp, now);
    }

    /** What came back after the Send. */
    method AwaitReply(key: Option<LeaseKey>, sent: Checkpoint, now: int) returns (out: Outcome)
      requires host.Valid() && host.g.phase == Running(key, AwaitSend(sent, now))
      modifies host
      ensures host.Valid() && host.g.origin == old(host.g.origin)
      ensures host.g.phase == Leave(key, Finished(out))
      ensures host.faultsLeft == old(host.faultsLeft)
              ==> && out.cp == Some(host.disk)
                  && RepliedTo(host.cfg.Delay(), sent, now, host.disk, out.err)
      ensures host.faultsLeft <= old(host.faultsLeft)
    {
      hide Host.Valid, Progress.After;
      var cp := sent;
      var reply := host.Do(ReqSendReply(cp.attempts));
      if reply.Failed? {
        if reply.err.ErrSessionContaminated? {
          out := Block(key, cp, SessionContaminated, reply.err);
        } else if reply.err.ErrRequestNotAccepted? {
          out := ScheduleSendRetry(key, cp, now, RequestNotAccepted, reply.err);
        } else {
          out := ReconcileLater(key, cp, now, DeliveryUncertainKind, reply.err, false);
        }
        return;
      }
      cp := cp.(state := StateDelivered);
      cp := cp.(aoTurnID := reply.receipt.turnID);
      cp := cp.(nextRetryAt := None);
      cp := cp.(lastErrorKind := NoError);
      out := SaveAndReturn(key, ByStep, cp, None);
    }

    /** Asks AO for the receipt of this delivery without sending anything. */
    method RecoverOnly(key: Option<LeaseKey>, loaded: Checkpoint, now: int, unconfirmed: ErrorKind)
      returns (out: Outcome)
      requires host.Valid() && host.g.phase == Running(key, Recover(loaded, now, unconfirmed))
      modifies host
      ensures host.Valid() && host.g.origin == old(host.g.origin)
      ensures host.g.phase == Leave(key, Finished(out))
      ensures host.faultsLeft == old(host.faultsLeft)
              ==> && out.cp == Some(host.disk)
                  && Recovered(host.cfg.Delay(), loaded, now, unconfirmed, host.disk, out.err)
      ensures host.faultsLeft <= old(host.faultsLeft)
    {
      hide Host.Valid, Progress.After;
      var cp := loaded;
      var answer := host.Do(ReqRecoverOnly(cp.task.sessionID, cp.task.deliveryID));
      if answer.Failed? {
        if answer.err.ErrSessionContaminated? {
          out := Block(key, cp, SessionContaminated, answer.err);
        } else {
          out := ReconcileLater(key, cp, now, DeliveryUncertainKind, answer.err, true);
        }
        return;
      }
      if answer.receipt.state.DeliveryAccepted? || answer.receipt.state.DeliveryCompleted? {
        cp := cp.(state := StateDelivered);
        cp := cp.(aoTurnID := answer.receipt.turnID);
        cp := cp.(nextRetryAt := None);
        cp := cp.(lastErrorKind := NoError);
        out := SaveAndReturn(key, ByStep, cp, None);
        return;
      }
      out := ReconcileLater(key, cp, now, unconfirmed, ErrDeliveryUncertain, true);
    }

    method ScheduleReconciliation(key: Option<LeaseKey>, tried: Checkpoint, now: int, kind: ErrorKind, cause: Error)
      returns (out: Outcome)
      requires host.Valid()
      requires host.g.phase == Running(key, DispatcherMachine.ScheduleReconciliation(host.cfg.Delay(), tried, now,
          kind, cause))
      modifies host
      ensures host.Valid() && host.g.origin == old(host.g.origin)
      ensures host.g.phase == Leave(key, Finished(out))
      ensures host.faultsLeft == old(host.faultsLeft)
              ==> && out == Outcome(Some(host.disk), Some(cause))
                  && (if tried.attempts < tried.task.retryBudget
                      then host.disk == tried.(nextRetryAt := Some(now + host.cfg.Delay()), lastErrorKind := kind)
                      else host.disk == Blocked(tried, RetryBudgetExhausted))
      ensures host.faultsLeft <= old(host.faultsLeft)
    {
      hide Host.Valid, Progress.After;
      var cp := tried;
      if cp.attempts >= cp.task.retryBudget {
        out := Block(key, cp, RetryBudgetExhausted, cause);
        return;
      }
      var next := now + host.cfg.Delay();
      cp := cp.(nextRetryAt := Some(next));
      cp := cp.(lastErrorKind := kind);
      out := SaveAndReturn(key, ByStep, cp, Some(cause));
    }

    method ScheduleSendRetry(key: Option<LeaseKey>, tried: Checkpoint, now: int, kind: ErrorKind, cause: Error)
      returns (out: Outcome)
      requires host.Valid()
      requires host.g.phase == Running(key, DispatcherMachine.ScheduleSendRetry(host.cfg.Delay(), tried, now, kind,
          cause))
      modifies host
      ensures host.Valid() && host.g.origin == old(host.g.origin)
      ensures host.g.phase == Leave(key, Finished(out))
      ensures host.faultsLeft == old(host.faultsLeft)
              ==> && out == Outcome(Some(host.disk), Some(cause))
                  && (if tried.attempts < tried.task.retryBudget
                      then host.disk == tried.(state := StateWaitingRetry, nextRetryAt := Some(now + host.cfg.Delay()),
                                               lastErrorKind := kind)
                      else host.disk == Blocked(tried, RetryBudgetExhausted))
      ensures host.faultsLeft <= old(host.faultsLeft)
    {
      hide Host.Valid, Progress.After;
      var cp := tried;
      if cp.attempts >= cp.task.retryBudget {
        out := Block(key, cp, RetryBudgetExhausted, cause);
        return;
      }
      var next := now + host.cfg.Delay();
      cp := cp.(state := StateWaitingRetry);
      cp := cp.(nextRetryAt := Some(next));
      cp := cp.(lastErrorKind := kind);
      out := SaveAndReturn(key, ByStep, cp, Some(cause));
    }

    method ReconcileLater(key: Option<LeaseKey>, loaded: Checkpoint, now: int, kind: ErrorKind, cause: Error,
                          countAttempt: bool) returns (out: Outcome)
      requires host.Valid()
      requires host.g.phase == Running(key, DispatcherMachine.ReconcileLater(host.cfg.Delay(), loaded, now, kind,
          cause, countAttempt))
      modifies host
      ensures host.Valid() && host.g.origin == old(host.g.origin)
      ensures host.g.phase == Leave(key, Finished(out))
      ensures host.faultsLeft == old(host.faultsLeft)
              ==> && out == Outcome(Some(host.disk), Some(cause))
                  && host.disk.attempts == loaded.attempts + (if countAttempt then 1 else 0)
                  && (if host.disk.attempts < loaded.task.retryBudget
                      then host.disk == loaded.(attempts := host.disk.attempts, state := StateDeliveryUncertain,
                                                nextRetryAt := Some(now + host.cfg.Delay()), lastErrorKind := kind)
                      else host.disk == Blocked(loaded.(attempts := host.disk.attempts), RetryBudgetExhausted))
      ensures host.faultsLeft <= old(host.faultsLeft)
    {
      hide Host.Valid, Progress.After;
      var cp := loaded;
      if countAttempt {
        cp := cp.(attempts := cp.attempts + 1);
      }
      if cp.attempts >= cp.task.retryBudget {
        out := Block(key, cp, RetryBudgetExhausted, cause);
        return;
      }
      var next := now + host.cfg.Delay();
      cp := cp.(state := StateDeliveryUncertain);
      cp := cp.(nextRetryAt := Some(next));
      cp := cp.(lastErrorKind := kind);
      out := SaveAndReturn(key, ByStep, cp, Some(cause));
    }

    method AcceptReceipt(key: Option<LeaseKey>, caller: Caller, loaded: Checkpoint, receipt: Option<TaskReceipt>)
      returns (out: Outcome)
      requires host.Valid()
      requires host.g.phase == Running(key, DispatcherMachine.AcceptReceipt(caller, loaded, receipt))
      modifies host
      ensures host.Valid() && host.g.origin == old(host.g.origin)
      ensures host.g.phase == Leave(key, Finished(out))
      ensures host.faultsLeft == old(host.faultsLeft)
              ==> && out.cp == Some(host.disk)
                  && (if receipt.Some? && receipt.value.accepted && receipt.value.taskID == loaded.task.taskID
                         && receipt.value.artifactSHA256 == loaded.task.artifactSHA256
                      then host.disk == loaded.(state := StateCompleted, sideEffect := SideEffectCompleted,
                                                nextRetryAt := None, lastErrorKind := NoError) && out.err.None?
                      else out.err.Some? && host.disk == Blocked(loaded, if receipt.None? then TaskReceiptMissing
                                                                         else TaskOracleFailed))
      ensures host.faultsLeft <= old(host.faultsLeft)
    {
      hide Host.Valid, Progress.After;
      var cp := loaded;
      if receipt.None? {
        out := SaveAndReturn(key, caller, Blocked(cp, TaskReceiptMissing), Some(ErrRefused(TaskReceiptMissing)));
        return;
      }
      var r := receipt.value;
      if !r.accepted || r.taskID != cp.task.taskID || r.artifactSHA256 != cp.task.artifactSHA256 {
        out := SaveAndReturn(key, caller, Blocked(cp, TaskOracleFailed), Some(ErrRefused(TaskOracleFailed)));
        return;
      }
      cp := cp.(state := StateCompleted);
      cp := cp.(sideEffect := SideEffectCompleted);
      cp := cp.(nextRetryAt := None);
      cp := cp.(lastErrorKind := NoError);
      out := SaveAndReturn(key, caller, cp, None);
    }

    method Block(key: Option<LeaseKey>, loaded: Checkpoint, kind: ErrorKind, cause: Error) returns (out: Outcome)
      requires host.Valid() && host.g.phase == Running(key, DispatcherMachine.Block(loaded, kind, cause))
      modifies host
      ensures host.Valid() && host.g.origin == old(host.g.origin)
      ensures host.g.phase == Leave(key, Finished(out))
      ensures host.faultsLeft == old(host.faultsLeft)
              ==> && host.disk == loaded.(state := StateBlocked, nextRetryAt := None, lastErrorKind := kind)
                  && out == Outcome(Some(host.disk), Some(cause))
      ensures host.faultsLeft <= old(host.faultsLeft)
    {
      hide Host.Valid, Progress.After;
      var cp := loaded.(state := StateBlocked);
      cp := cp.(nextRetryAt := None);
      cp := cp.(lastErrorKind := kind);
      out := SaveAndReturn(key, ByStep, cp, Some(cause));
    }

    /** Saves `cp`; an error of the save displaces `err`. */
    method SaveAndReturn(key: Option<LeaseKey>, caller: Caller, cp: Checkpoint, err: Option<Error>)
      returns (out: Outcome)
      requires host.Valid() && host.g.phase == Running(key, DispatcherMachine.SaveAndReturn(caller, cp, err))
      modifies host
      ensures host.Valid() && host.g.origin == old(host.g.origin)
      ensures host.g.phase == Leave(key, Finished(out))
      ensures out.cp == Some(cp) && host.faultsLeft <= old(host.faultsLeft)
      ensures host.faultsLeft == old(host.faultsLeft) ==> host.disk == cp && out.err == err
      ensures host.faultsLeft < old(host.faultsLeft) ==> out.err.Some?
    {
      hide Host.Valid, Progress.After;
      var saved := host.Do(ReqSave(cp));
      out := Outcome(Some(cp), if saved.SaveFailed? then Some(saved.err) else err);
    }

    method CancelLocked(key: Option<LeaseKey>, now: int) returns (out: Outcome)
      requires host.Valid() && host.g.phase == Running(key, LoadForCancel(now))
      modifies host
      ensures host.Valid() && host.g.origin == old(host.g.origin)
      ensures host.g.phase == Leave(key, Finished(out))
    {
      hide Host.Valid, Progress.After;
      var loaded := host.Do(ReqLoad);
      if loaded.Failed? {
        return Outcome(None, Some(loaded.err));
      }
      var cp := loaded.cp;
      if cp.state.StateCompleted? || cp.state.StateBlocked? || cp.state.StateCancelled? {
        return Outcome(Some(cp), None);
      }
      if cp.aoTurnID == "" && (cp.state.StatePending? || cp.state.StateWaitingRetry?) {
        cp := cp.(state := StateCancelled);
        cp := cp.(nextRetryAt := None);
        cp := cp.(lastErrorKind := HumanStop);
        cp := cp.(lastObserved := now);
        out := SaveAndReturn(key, ByCancel, cp, None);
        return;
      }
      // From here on every Step finds the task finished, whatever happens to this call.
      cp := cp.(state := StateCancelUnconfirmed);
      cp := cp.(nextRetryAt := None);
      cp := cp.(lastErrorKind := AoStopUnconfirmed);
      cp := cp.(lastObserved := now);
      var saved := host.Do(ReqSave(cp));
      if saved.SaveFailed? {
        return Outcome(Some(cp), Some(saved.err));
      }
      out := CancelPersisted(key, cp);
    }

    /** The part of Cancel behind its mark: it finds the turn if it has to. */
    method CancelPersisted(key: Option<LeaseKey>, marked: Checkpoint) returns (out: Outcome)
      requires host.Valid() && host.disk == marked
      requires host.g.phase == Running(key, if marked.aoTurnID == "" then CancelRecover(marked)
                                       else CancelObserve(marked))
      modifies host
      ensures host.Valid() && host.g.origin == old(host.g.origin)
      ensures host.g.phase == Leave(key, Finished(out))
      ensures host.faultsLeft == old(host.faultsLeft)
              ==> && out.cp == Some(host.disk)
                  && (if out.err.Some? then host.disk == marked.(aoTurnID := host.disk.aoTurnID)
                      else AfterCancel(host.disk.state) && host.disk.aoTurnID != "")
                  && (marked.aoTurnID != "" ==> host.disk.aoTurnID == marked.aoTurnID)
      ensures host.faultsLeft <= old(host.faultsLeft)
    {
      hide Host.Valid, Progress.After;
      var cp := marked;
      if cp.aoTurnID == "" {
        var answer := host.Do(ReqRecoverOnly(cp.task.sessionID, cp.task.deliveryID));
        if answer.Failed? {
          return Outcome(Some(cp), Some(answer.err));
        }
        var receipt := answer.receipt;
        if receipt.turnID == "" || !(receipt.state.DeliveryAccepted? || receipt.state.DeliveryCompleted?
                                     || receipt.state.DeliveryStopped? || receipt.state.DeliveryRejected?) {
          return Outcome(Some(cp), Some(ErrDeliveryUncertain));
        }
        cp := cp.(aoTurnID := receipt.turnID);
        var saved := host.Do(ReqSave(cp));
        if saved.SaveFailed? {
          return Outcome(Some(cp), Some(saved.err));
        }
      }
      out := CancelMarked(key, cp);
    }

    /** The part of Cancel that knows the turn. */
    method CancelMarked(key: Option<LeaseKey>, cp: Checkpoint) returns (out: Outcome)
      requires host.Valid() && host.disk == cp && host.g.phase == Running(key, CancelObserve(cp))
      modifies host
      ensures host.Valid() && host.g.origin == old(host.g.origin)
      ensures host.g.phase == Leave(key, Finished(out))
      ensures host.faultsLeft == old(host.faultsLeft)
              ==> && out.cp == Some(host.disk)
                  && (if out.err.Some? then host.disk == cp
                      else AfterCancel(host.disk.state) && !host.disk.lastErrorKind.AoStopUnconfirmed?)
                  && host.disk.aoTurnID == cp.aoTurnID
      ensures host.faultsLeft <= old(host.faultsLeft)
    {
      hide Host.Valid, Progress.After, AfterCancel, Earns, Satisfies;
      var seen := host.Do(ReqObserve(cp.task.sessionID, cp.aoTurnID));
      if seen.Failed? {
        return Outcome(Some(cp), Some(seen.err));
      }
      if Settles(seen.obs) {
        out := SettleCancelObservation(key, cp, seen.obs);
        return;
      }
      if !cp.task.sessionExclusive || cp.task.runOwner == "" {
        return Outcome(Some(cp), Some(ErrSessionOwnerMismatch));
      }
      var stopped := host.Do(ReqStop(cp.task.sessionID, cp.aoTurnID));
      out := CancelStopped(key, cp, if stopped.Failed? then Some(stopped.err) else None);
    }

    /** The last look of a Cancel, behind its Stop. */
    method CancelStopped(key: Option<LeaseKey>, cp: Checkpoint, refused: Option<Error>) returns (out: Outcome)
      requires host.Valid() && host.disk == cp
      requires host.g.phase == Running(key, if refused.Some? then ObserveAfterFailedStop(cp, refused.value)
                                            else ObserveAfterStop(cp))
      modifies host
      ensures host.Valid() && host.g.origin == old(host.g.origin)
      ensures host.g.phase == Leave(key, Finished(out))
      ensures host.faultsLeft == old(host.faultsLeft)
              ==> && out.cp == Some(host.disk)
                  && (if out.err.Some? then host.disk == cp
                      else AfterCancel(host.disk.state) && !host.disk.lastErrorKind.AoStopUnconfirmed?)
                  && host.disk.aoTurnID == cp.aoTurnID
      ensures refused.Some? && out.err.Some? && host.faultsLeft == old(host.faultsLeft) ==> out.err == refused
      ensures host.faultsLeft <= old(host.faultsLeft)
    {
      hide Host.Valid, Progress.After, AfterCancel, Earns, Satisfies;
      var seen := host.Do(ReqObserve(cp.task.sessionID, cp.aoTurnID));
      if seen.Observed? && Settles(seen.obs) {
        out := SettleCancelObservation(key, cp, seen.obs);
        return;
      }
      if refused.Some? {
        return Outcome(Some(cp), refused);
      }
      if seen.Failed? {
        return Outcome(Some(cp), Some(seen.err));
      }
      return Outcome(Some(cp), Some(ErrDeliveryUncertain));
    }

    method SettleCancelObservation(key: Option<LeaseKey>, marked: Checkpoint, obs: Observation) returns (out: Outcome)
      requires Settles(obs)
      requires host.Valid() && host.g.phase == Running(key, Settle(marked, obs))
      modifies host
      ensures host.Valid() && host.g.origin == old(host.g.origin)
      ensures host.g.phase == Leave(key, Finished(out))
      ensures host.faultsLeft == old(host.faultsLeft)
              ==> && out == Outcome(Some(host.disk), None)
                  && host.disk.state == (if obs.delivery.DeliveryStopped? then StateCancelled
                                         else if obs.delivery.DeliveryRejected? then StateBlocked
                                         else if Earns(obs, marked.task) then StateCompleted
                                         else StateCancelUnconfirmed)
                  && host.disk.aoTurnID == marked.aoTurnID && host.disk.attempts == marked.attempts
                  && !host.disk.lastErrorKind.AoStopUnconfirmed? && AfterCancel(host.disk.state)
      ensures host.faultsLeft <= old(host.faultsLeft)
    {
      hide Host.Valid, Progress.After;
      var cp := marked;
      if obs.delivery.DeliveryStopped? {
        cp := cp.(state := StateCancelled);
        cp := cp.(lastErrorKind := HumanStop);
        out := SaveAndReturn(key, ByCancel, cp, None);
      } else if obs.delivery.DeliveryCompleted? {
        if obs.receipt.Some? && Satisfies(obs.receipt.value, cp.task) {
          out := AcceptReceipt(key, ByCancel, cp, obs.receipt);
          return;
        }
        cp := cp.(state := StateCancelUnconfirmed);
        cp := cp.(sideEffect := SideEffectPending);
        cp := cp.(lastErrorKind := CompletedOutcomeUnverified);
        out := SaveAndReturn(key, ByCancel, cp, None);
      } else {
        cp := cp.(state := StateBlocked);
        cp := cp.(lastErrorKind := DeliveryFailed);
        out := SaveAndReturn(key, ByCancel, cp, None);
      }
    }
  }
}
