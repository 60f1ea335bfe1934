/** What the protocol promises, for every interleaving of Steps and Cancels by any number of
    processes, with crashes at any I/O boundary, failing saves and operator clean-up. */
module DeliveryGuarantees {
  import opened CheckpointModel
  import opened DispatcherMachine
  import opened DeliveryHistory
  import opened LocalSafety
  import opened DeliveryWorld

  /** `h` is an earlier stage of `g`, or `g` itself. */
  predicate Prefix(h: History, g: History) {
    h == g || (g.Then? && Prefix(h, g.past))
  }

  predicate IsSend(e: Event) {
    e.Called? && e.req.ReqSend?
  }

  function Refusal(attempt: int): Event {
    Answered(ReqSendReply(attempt), Failed(ErrRequestNotAccepted))
  }

  predicate SendHappened(h: History, attempt: int) {
    h.Then? && ((IsSend(h.last) && h.last.req.attempt == attempt) || SendHappened(h.past, attempt))
  }

  lemma {:induction false} LawfulPrefix(h: History, g: History)
    requires Prefix(h, g) && Lawful(g)
    ensures Lawful(h)
  {
    if h != g {
      LawfulPrefix(h, g.past);
    }
  }

  // ----- from runs to histories -----

  lemma {:induction false} RunsKeepInitial(w: World, acts: seq<Action>, v: World, s: string)
    requires Inv(w) && Reaches(w, acts, v) && s in w.cells
    ensures s in v.cells && Initial(v.cells[s].hist) == Initial(w.cells[s].hist)
    decreases |acts|
  {
    if acts != [] {
      var next := Apply(w, acts[0]);
      ActionKeepsInv(w, acts[0]);
      ActionKeepsInitial(w, acts[0], s);
      RunsKeepInitial(next, acts[1..], v, s);
    }
  }

  lemma ActionKeepsInitial(w: World, a: Action, s: string)
    requires Inv(w) && Enabled(w, a) && s in w.cells
    ensures s in Apply(w, a).cells && Initial(Apply(w, a).cells[s].hist) == Initial(w.cells[s].hist)
  {
    hide StoreInv, BodyInv, HistAfter;
    if a.Reply? && w.procs[a.p].phase.Running? {
      InitialKept(w.procs[a.p].cfg.Delay(), w.cells[w.procs[a.p].store].hist, w.procs[a.p].phase.body, a.ans);
    }
  }

  /** Every event of every run was in order when it happened, and the file agrees with the events. */
  lemma EveryRunIsLawful(w: World, acts: seq<Action>, v: World, s: string)
    requires Init(w) && Reaches(w, acts, v) && s in v.cells && s in w.cells
    ensures Lawful(v.cells[s].hist)
    ensures Current(v.cells[s].hist) == v.cells[s].disk && CheckpointOk(v.cells[s].disk)
    ensures Initial(v.cells[s].hist) == w.cells[s].disk
  {
    InitInv(w);
    RunsKeepInv(w, acts, v);
    RunsKeepInitial(w, acts, v, s);
  }

  /** Whatever reaches a file, by whichever process, is a record that a reader accepts. */
  lemma RecordsAreValid(w: World, acts: seq<Action>, v: World, s: string)
    requires Init(w) && Reaches(w, acts, v) && s in v.cells && s in w.cells
    ensures var cp := v.cells[s].disk;
            && cp.task.version == 1 && cp.attempts >= 0 && cp.task.retryBudget >= 0
            && "" !in {cp.task.taskID, cp.task.deliveryID, cp.task.sessionID, cp.task.artifactPath,
                       cp.task.artifactSHA256, cp.task.gitHead}
  {
    EveryRunIsLawful(w, acts, v, s);
  }

  /** What a running process is about to ask of AO or the artifact is in order in every reachable
      world, whether it gets an answer, dies first, or dies with the request on its way. */
  lemma OutstandingCalls(w: World, acts: seq<Action>, v: World, p: nat)
    requires Init(w) && Reaches(w, acts, v) && p in v.procs
    requires v.procs[p].phase.Running? && IsCall(v.procs[p].Request())
    ensures v.procs[p].store in v.cells
    ensures var hist, body := v.cells[v.procs[p].store].hist, v.procs[p].phase.body;
            EventOk(hist, Called(CallerOf(body), TimeOf(body), BodyRequest(body))) && Lawful(Asked(hist, body))
  {
    InitInv(w);
    RunsKeepInv(w, acts, v);
    assert ProcInv(v, p);
    var q := v.procs[p];
    PendingCall(q.cfg.Delay(), v.cells[q.store], q.phase.body);
  }

  // ----- calls lost in a crash -----

  function Length(h: History): nat {
    match h
    case Genesis(_) => 0
    case Then(past, _) => 1 + Length(past)
  }

  /** `g` continues `h`, and not with an answer to the last call of `h`. */
  predicate GoesOnUnanswered(h: History, g: History) {
    h == g || (g.Then? && if g.past == h then !g.last.Answered? else GoesOnUnanswered(h, g.past))
  }

  lemma {:induction false} ContinuationIsPrefix(h: History, g: History)
    requires GoesOnUnanswered(h, g)
    ensures Prefix(h, g) && Length(h) <= Length(g)
  {
    if h != g && g.past != h {
      ContinuationIsPrefix(h, g.past);
    }
  }

  /** The request of the process has left, and the process dies before it sees an answer. */
  predicate LosesCall(w: World, p: nat, left: bool) {
    && Enabled(w, Crash(p, left)) && w.procs[p].store in w.cells && w.procs[p].phase.Running?
    && (!left ==> w.procs[p].phase.body.AwaitSend?)
  }

  function HistoryAfterCrash(w: World, p: nat, left: bool): History
    requires LosesCall(w, p, left)
  {
    var q := w.procs[p];
    var hist := w.cells[q.store].hist;
    if left then Asked(hist, q.phase.body) else hist
  }

  predicate AwaitsReply(q: Process, s: string) {
    q.store == s && q.phase.Running? && q.phase.body.AwaitSend?
  }

  /** Nobody is left who could take an answer to the last call of `h`. */
  predicate Abandoned(w: World, s: string, h: History) {
    && s in w.cells && GoesOnUnanswered(h, w.cells[s].hist)
    && (w.cells[s].hist == h ==> forall r :: r in w.procs ==> !AwaitsReply(w.procs[r], s))
  }

  lemma CrashAbandons(w: World, p: nat, left: bool)
    requires Inv(w) && LosesCall(w, p, left)
    ensures Abandoned(Apply(w, Crash(p, left)), w.procs[p].store, HistoryAfterCrash(w, p, left))
  {
    hide StoreInv, BodyInv;
    var v, s := Apply(w, Crash(p, left)), w.procs[p].store;
    forall r | r in v.procs
      ensures !AwaitsReply(v.procs[r], s)
    {
      assert ProcInv(w, p) && ProcInv(w, r);
      if r != p && AwaitsReply(w.procs[r], s) {
        LeaseNamesOneHolder(w, p, r);
      }
    }
  }

  /** One answer to a body that does not await the reply to a Send. */
  lemma AnswerGoesOn(delay: int, h: History, hist: History, body: Body, ans: Answer)
    requires GoesOnUnanswered(h, hist) && Fits(BodyRequest(body), ans) && (hist == h ==> !body.AwaitSend?)
    ensures var after := HistAfter(delay, hist, body, ans);
            && GoesOnUnanswered(h, after)
            && (after == h ==> hist == h && !BodyResume(delay, body, ans).AwaitSend?)
  {
    ContinuationIsPrefix(h, hist);
    assert Length(Asked(hist, body)) == Length(hist) + 1;
  }

  lemma ActionAbandons(w: World, a: Action, s: string, h: History)
    requires Inv(w) && Enabled(w, a) && Abandoned(w, s, h)
    ensures Abandoned(Apply(w, a), s, h)
  {
    hide StoreInv, BodyInv, BodyResume, HistAfter, GoesOnUnanswered, Asked;
    match a
    case Reply(p, ans) => ReplyAbandons(w, p, ans, s, h);
    case Crash(p, left) =>
      if left && w.procs[p].store == s {
        AskedGoesOn(h, w.cells[s].hist, w.procs[p].phase.body);
      }
    case _ =>
  }

  lemma AskedGoesOn(h: History, hist: History, body: Body)
    requires GoesOnUnanswered(h, hist)
    ensures GoesOnUnanswered(h, Asked(hist, body)) && Asked(hist, body) != h
  {
    ContinuationIsPrefix(h, hist);
    assert Length(Asked(hist, body)) == Length(hist) + 1;
  }

  lemma ReplyAbandons(w: World, p: nat, ans: Answer, s: string, h: History)
    requires Inv(w) && Enabled(w, Reply(p, ans)) && Abandoned(w, s, h)
    ensures Abandoned(ApplyReply(w, p, ans), s, h)
  {
    hide StoreInv, BodyInv, BodyResume, HistAfter, GoesOnUnanswered, Inv;
    var q := w.procs[p];
    if q.phase.Running? && q.store == s {
      AnswerGoesOn(q.cfg.Delay(), h, w.cells[s].hist, q.phase.body, ans);
    }
  }

  lemma {:induction false} RunsAbandon(w: World, acts: seq<Action>, v: World, s: string, h: History)
    requires Inv(w) && Reaches(w, acts, v) && Abandoned(w, s, h)
    ensures Inv(v) && Abandoned(v, s, h)
    decreases |acts|
  {
    hide Inv, Abandoned, Apply, Enabled;
    if acts != [] {
      ActionKeepsInv(w, acts[0]);
      ActionAbandons(w, acts[0], s, h);
      RunsAbandon(Apply(w, acts[0]), acts[1..], v, s, h);
    }
  }

  /** A call that was lost in a crash stays in the history of every continuation, and no answer to it
      ever gets there. */
  lemma LostCallsAreRecorded(w: World, acts: seq<Action>, v: World, p: nat, left: bool, more: seq<Action>, u: World)
    requires Init(w) && Reaches(w, acts, v) && LosesCall(v, p, left)
    requires Reaches(Apply(v, Crash(p, left)), more, u)
    ensures v.procs[p].store in u.cells
    ensures GoesOnUnanswered(HistoryAfterCrash(v, p, left), u.cells[v.procs[p].store].hist)
  {
    hide Inv, Apply, BodyRequest;
    InitInv(w);
    RunsKeepInv(w, acts, v);
    CrashAbandons(v, p, left);
    ActionKeepsInv(v, Crash(p, left));
    RunsAbandon(Apply(v, Crash(p, left)), more, u, v.procs[p].store, HistoryAfterCrash(v, p, left));
  }

  /** Behind a Send without an answer no other Send is in order. */
  lemma {:induction false} UnansweredSendStaysOpen(h: History, g: History)
    requires Lawful(g) && GoesOnUnanswered(h, g) && h.Then? && IsSend(h.last)
    ensures h.last.req.attempt in OpenSends(g) && SendCount(g) == SendCount(h)
    ensures g != h ==> g.Then? && !IsSend(g.last)
  {
    hide Ready, WriteOk, CallOk;
    if g != h {
      if g.past == h {
        assert EventOk(h, g.last);
      } else {
        UnansweredSendStaysOpen(h, g.past);
        assert EventOk(g.past, g.last);
      }
    }
  }

  /** A Send that was lost in a crash stays open in every continuation: no other Send of its
      checkpoint ever leaves, and the task never waits for one again. */
  lemma LostSendIsTheLast(w: World, acts: seq<Action>, v: World, p: nat, left: bool, more: seq<Action>, u: World)
    requires Init(w) && Reaches(w, acts, v) && LosesCall(v, p, left)
    requires v.procs[p].phase.body.IssueSend? || v.procs[p].phase.body.AwaitSend?
    requires Reaches(Apply(v, Crash(p, left)), more, u)
    ensures v.procs[p].store in u.cells
    ensures var cell := u.cells[v.procs[p].store];
            && v.procs[p].phase.body.cp.attempts in OpenSends(cell.hist)
            && SendCount(cell.hist) == SendCount(HistoryAfterCrash(v, p, left))
            && !cell.disk.state.StatePending? && !cell.disk.state.StateWaitingRetry?
  {
    var s, h := v.procs[p].store, HistoryAfterCrash(v, p, left);
    LostCallsAreRecorded(w, acts, v, p, left, more, u);
    LostSendWasIssued(w, acts, v, p, left);
    hide LosesCall, HistoryAfterCrash;
    InitInv(w);
    RunsKeepInv(w, acts, v);
    ActionKeepsInv(v, Crash(p, left));
    RunsKeepInv(Apply(v, Crash(p, left)), more, u);
    assert StoreInv(u.cells[s]);
    UnansweredSendStaysOpen(h, u.cells[s].hist);
  }

  lemma LostSendWasIssued(w: World, acts: seq<Action>, v: World, p: nat, left: bool)
    requires Init(w) && Reaches(w, acts, v) && LosesCall(v, p, left)
    requires v.procs[p].phase.body.IssueSend? || v.procs[p].phase.body.AwaitSend?
    ensures var h := HistoryAfterCrash(v, p, left);
            h.Then? && IsSend(h.last) && h.last.req.attempt == v.procs[p].phase.body.cp.attempts
  {
    hide StoreInv, BodyInv, Init, Inv, Reaches;
    if v.procs[p].phase.body.AwaitSend? {
      InitInv(w);
      RunsKeepInv(w, acts, v);
      AwaitingProcess(v, p);
    }
  }

  lemma AwaitingProcess(v: World, p: nat)
    requires Inv(v) && p in v.procs && v.procs[p].phase.Running? && v.procs[p].phase.body.AwaitSend?
    ensures v.procs[p].store in v.cells
    ensures var hist := v.cells[v.procs[p].store].hist;
            hist.Then? && IsSend(hist.last) && hist.last.req.attempt == v.procs[p].phase.body.cp.attempts
  {
    hide StoreInv, BodyInv;
    assert ProcInv(v, p);
    AwaitedSend(v.procs[p].cfg.Delay(), v.cells[v.procs[p].store], v.procs[p].phase.body);
  }

  lemma AwaitedSend(delay: int, cell: Cell, body: Body)
    requires BodyInv(delay, cell, body) && body.AwaitSend?
    ensures cell.hist.Then? && IsSend(cell.hist.last) && cell.hist.last.req.attempt == body.cp.attempts
  {
  }

  // ----- sends -----

  lemma {:induction false} SendsRefusedOrOpen(h: History, attempt: int)
    requires Lawful(h) && SendHappened(h, attempt)
    ensures attempt in OpenSends(h) || Happened(h, Refusal(attempt))
    ensures attempt <= LastSend(h)
  {
    if IsSend(h.last) && h.last.req.attempt == attempt {
    } else {
      SendsRefusedOrOpen(h.past, attempt);
    }
  }

  /** A Send is issued only if every earlier Send of the delivery came back as definitely not
      accepted. So once a Send is in flight, lost in a crash, uncertain or delivered, no other
      follows: only RecoverOnly may ask for it. */
  lemma AtMostOneAmbiguousDelivery(w: World, acts: seq<Action>, v: World, s: string,
                                   past: History, e: Event, earlier: int)
    requires Init(w) && Reaches(w, acts, v) && s in v.cells && s in w.cells
    requires Prefix(Then(past, e), v.cells[s].hist)
    requires IsSend(e) && SendHappened(past, earlier)
    ensures Happened(past, Refusal(earlier)) && earlier < e.req.attempt
  {
    EveryRunIsLawful(w, acts, v, s);
    LawfulPrefix(Then(past, e), v.cells[s].hist);
    SendsRefusedOrOpen(past, earlier);
  }

  /** Reading backwards: the write-ahead record, a preflight that went through, an AO that knows no
      turn of a live session, and an artifact and worktree that are the task's. */
  predicate Prepared(past: History) {
    && past.Then? && past.last.Persisted?
    && var prepared := past.past;
    && Told(prepared, ReqPreflight(Current(past).task), Ack) && prepared.past.Then?
    && var observed := prepared.past.past;
    && SessionUp(observed) && observed.last.ans.obs.delivery.DeliveryNotFound? && observed.past.Then?
    && ArtifactChecked(observed.past.past)
  }

  /** Every Send carries the task's own session, delivery and action, and its preparation comes immediately
      before it: nothing of another call, another process or an earlier attempt lies in between. */
  lemma SendIsPrepared(w: World, acts: seq<Action>, v: World, s: string, past: History, e: Event)
    requires Init(w) && Reaches(w, acts, v) && s in v.cells && s in w.cells
    requires Prefix(Then(past, e), v.cells[s].hist) && IsSend(e)
    ensures Prepared(past)
    ensures var task := w.cells[s].disk.task;
            e.req == ReqSend(task.sessionID, task.deliveryID, task.nextAction, e.req.attempt)
  {
    EveryRunIsLawful(w, acts, v, s);
    LawfulPrefix(Then(past, e), v.cells[s].hist);
    SendsFitAttempts(past);
    InitialOfPrefix(Then(past, e), v.cells[s].hist);
    PreparationChain(past, e);
  }

  /** An answer, the call it answers, and what that call was ready for. */
  lemma AnsweredCall(h: History)
    requires Lawful(h) && h.Then? && h.last.Answered? && !h.last.req.ReqSendReply?
    ensures h.past.Then? && h.past.last.Called? && h.past.last.req == h.last.req
    ensures Lawful(h.past.past) && Current(h.past.past) == Current(h)
    ensures Ready(h.past.past, h.past.last.caller, h.last.req)
  {
    hide Ready, SendOk, CallOk;
    var asked := h.past;
    assert Lawful(asked) && AnswerOk(asked, h.last.req, h.last.ans);
    assert EventOk(asked.past, asked.last);
  }

  lemma PreparationChain(past: History, e: Event)
    requires Lawful(Then(past, e)) && IsSend(e)
    ensures Prepared(past)
    ensures var task := Current(past).task;
            e.req == ReqSend(task.sessionID, task.deliveryID, task.nextAction, e.req.attempt)
  {
    hide SendOk, CallOk, WriteOk, Lawful;
    SendIsReady(past, e);
    var prepared := past.past;
    AnsweredCall(prepared);
    var observed := prepared.past.past;
    AnsweredCall(observed);
  }

  lemma SendIsReady(past: History, e: Event)
    requires Lawful(Then(past, e)) && IsSend(e)
    ensures Ready(past, e.caller, e.req)
    ensures Lawful(past.past) && Current(past.past).task == Current(past).task
  {
    hide SendOk, CallOk;
    assert EventOk(past, e);
    assert Lawful(past) && EventOk(past.past, past.last);
  }

  lemma {:induction false} InitialOfPrefix(h: History, g: History)
    requires Prefix(h, g)
    ensures Initial(h) == Initial(g)
  {
    if h != g {
      InitialOfPrefix(h, g.past);
    }
  }

  lemma {:induction false} SendsFitAttempts(h: History)
    requires Lawful(h)
    ensures Initial(h).attempts <= LastSend(h)
    ensures SendCount(h) <= LastSend(h) - Initial(h).attempts
    ensures LastSend(h) == Initial(h).attempts || LastSend(h) <= Initial(h).task.retryBudget
    ensures Current(h).task == Initial(h).task
  {
    if h.Then? {
      SendsFitAttempts(h.past);
    }
  }

  /** Over its whole life, however often its owners crash, a checkpoint is sent at most as often as
      its budget had attempts left. */
  lemma SendBudget(w: World, acts: seq<Action>, v: World, s: string)
    requires Init(w) && Reaches(w, acts, v) && s in v.cells && s in w.cells
    ensures SendCount(v.cells[s].hist) <= w.cells[s].disk.task.retryBudget - w.cells[s].disk.attempts
  {
    EveryRunIsLawful(w, acts, v, s);
    SendsFitAttempts(v.cells[s].hist);
    GenesisFresh(v.cells[s].hist);
  }

  lemma {:induction false} GenesisFresh(h: History)
    requires Lawful(h)
    ensures Fresh(Initial(h))
  {
    if h.Then? {
      GenesisFresh(h.past);
    }
  }

  /** Attempts on disk never decrease, stay within the budget while the task is alive, leave room
      for a Send while it waits for one, and exceed the budget only in a blocked record, by one. */
  lemma {:induction false} AttemptsOverTime(h: History, g: History)
    requires Prefix(h, g) && Lawful(g)
    ensures Current(h).attempts <= Current(g).attempts
    ensures var cp := Current(g);
            && (!cp.Terminal() ==> cp.attempts <= cp.task.retryBudget)
            && (cp.state.StateWaitingRetry? ==> cp.attempts < cp.task.retryBudget)
            && cp.attempts <= cp.task.retryBudget + 1
            && (cp.attempts > cp.task.retryBudget ==> cp.state.StateBlocked?)
  {
    LawfulCurrentOk(g);
    if Current(g).attempts > Current(g).task.retryBudget {
      OverBudgetIsBlocked(g);
    }
    if h != g {
      AttemptsOverTime(h, g.past);
    }
  }

  /** Attempts above the budget are exactly one too many, and their task is blocked. */
  lemma {:induction false} OverBudgetIsBlocked(h: History)
    requires Lawful(h) && Current(h).attempts > Current(h).task.retryBudget
    ensures Current(h).attempts == Current(h).task.retryBudget + 1
    ensures Current(h).state.StateBlocked? && Current(h).lastErrorKind.RetryBudgetExhausted?
  {
    LawfulCurrentOk(h);
    if h.Then? {
      LawfulCurrentOk(h.past);
      SendsFitAttempts(h);
      if h.last.Persisted? {
        SendsFitAttempts(h.past);
        if Current(h.past).attempts > Current(h).task.retryBudget {
          OverBudgetIsBlocked(h.past);
        }
      } else {
        OverBudgetIsBlocked(h.past);
      }
    }
  }

  /** The write that exceeds the budget: a Step's, on a live record whose attempts are used up, on an
      answer that costs one more. */
  lemma OverBudgetExactly(past: History, e: Event)
    requires Lawful(Then(past, e)) && e.Persisted?
    ensures Current(past).attempts <= e.cp.task.retryBudget < e.cp.attempts
            <==> && e.caller.ByStep? && !Current(past).Terminal()
                 && Current(past).attempts == e.cp.task.retryBudget
                 && past.Then? && past.last.Answered? && CostsAttempt(ByStep, past.last.req, past.last.ans)
  {
    LawfulCurrentOk(past);
  }

  lemma {:induction false} LawfulCurrentOk(h: History)
    requires Lawful(h)
    ensures CheckpointOk(Current(h))
  {
    if h.Then? && !h.last.Persisted? {
      LawfulCurrentOk(h.past);
    }
  }

  // ----- cancellation -----

  lemma {:induction false} CancelStaysSeen(h: History, g: History)
    requires Prefix(h, g) && CancelSeen(h)
    ensures CancelSeen(g)
  {
    if h != g {
      CancelStaysSeen(h, g.past);
    }
  }

  /** Once a Cancel has written, no Step makes an external call or changes the state; and every
      external call of a Cancel finds its mark already on disk. */
  lemma CancelWins(w: World, acts: seq<Action>, v: World, s: string, h: History, past: History, e: Event)
    requires Init(w) && Reaches(w, acts, v) && s in v.cells && s in w.cells
    requires Prefix(Then(past, e), v.cells[s].hist)
    ensures Prefix(h, past) && CancelSeen(h) && e.Called? ==> e.caller.ByCancel?
    ensures Prefix(h, past) && CancelSeen(h) && e.Persisted? && e.caller.ByStep?
            ==> e.cp.state == Current(past).state
    ensures e.Called? && e.caller.ByCancel?
            ==> CancelSeen(past) && Current(past).state.StateCancelUnconfirmed?
  {
    EveryRunIsLawful(w, acts, v, s);
    LawfulPrefix(Then(past, e), v.cells[s].hist);
    if Prefix(h, past) && CancelSeen(h) {
      CancelStaysSeen(h, past);
    }
  }

  /** COMPLETED, BLOCKED and CANCELLED are final; an unconfirmed cancellation can only end in one of
      them. */
  lemma {:induction false} FinalStates(h: History, g: History)
    requires Prefix(h, g) && Lawful(g)
    ensures var state := Current(h).state;
            state.StateCompleted? || state.StateBlocked? || state.StateCancelled? ==> Current(g).state == state
    ensures Current(h).state.StateCancelUnconfirmed? ==> AfterCancel(Current(g).state)
  {
    if h != g {
      FinalStates(h, g.past);
    }
  }

  /** No Cancel writes behind `h` in `g`. */
  predicate NoCancelSince(h: History, g: History) {
    h == g || (g.Then? && NoCancelSince(h, g.past) && !(g.last.Persisted? && g.last.caller.ByCancel?))
  }

  lemma {:induction false} StepsOnlyRedate(h: History, g: History)
    requires Lawful(g) && NoCancelSince(h, g) && Current(h).Terminal()
    ensures Current(g) == Current(h).(lastObserved := Current(g).lastObserved)
  {
    if h != g {
      StepsOnlyRedate(h, g.past);
    }
  }

  /** However many Steps follow in a run, a finished record, an unconfirmed cancellation included,
      keeps all but its date until a Cancel writes again. */
  lemma StepKeepsTerminal(w: World, acts: seq<Action>, v: World, s: string, h: History)
    requires Init(w) && Reaches(w, acts, v) && s in v.cells && s in w.cells
    requires NoCancelSince(h, v.cells[s].hist) && Current(h).Terminal()
    ensures v.cells[s].disk == Current(h).(lastObserved := v.cells[s].disk.lastObserved)
  {
    EveryRunIsLawful(w, acts, v, s);
    StepsOnlyRedate(h, v.cells[s].hist);
  }

  // ----- completion -----

  /** AO reports the delivery completed, with a receipt that is accepted and names this task and this
      artifact. */
  predicate ReportsDone(obs: Observation, task: Task) {
    && obs.delivery.DeliveryCompleted? && obs.receipt.Some? && obs.receipt.value.accepted
    && obs.receipt.value.taskID == task.taskID && obs.receipt.value.artifactSHA256 == task.artifactSHA256
  }

  /** The side effect is recorded as completed exactly when the state is COMPLETED, and then AO has
      reported completion with a receipt accepted for this very task and artifact. */
  lemma {:induction false} CompletionIsEarned(h: History)
    requires Lawful(h)
    ensures Current(h).sideEffect.SideEffectCompleted? <==> Current(h).state.StateCompleted?
    ensures Current(h).state.StateCompleted?
            ==> exists req, obs :: Happened(h, Answered(req, Observed(obs))) && req.ReqObserve?
                                   && ReportsDone(obs, Current(h).task)
  {
    LawfulCurrentOk(h);
    if h.Then? {
      if h.last.Persisted? {
        if h.last.cp.state.StateCompleted? {
          var req, obs := EarningObservation(h.past, h.last.cp.task);
          assert Happened(h, Answered(req, Observed(obs)));
        }
      } else {
        CompletionIsEarned(h.past);
        if Current(h).state.StateCompleted? {
          var req, obs :| Happened(h.past, Answered(req, Observed(obs))) && req.ReqObserve?
                          && ReportsDone(obs, Current(h).task);
          assert Happened(h, Answered(req, Observed(obs)));
        }
      }
    }
  }

  lemma {:induction false} EarningObservation(h: History, task: Task) returns (req: Request, obs: Observation)
    requires Earned(h, task)
    ensures Happened(h, Answered(req, Observed(obs))) && req.ReqObserve? && Earns(obs, task)
  {
    if IsEarningObservation(h.last, task) {
      req, obs := h.last.req, h.last.ans.obs;
    } else {
      req, obs := EarningObservation(h.past, task);
    }
  }

  // ----- backoff -----

  /** Terminal checkpoints have no deadline, waiting and uncertain ones have one; every deadline is
      its writer's delay after the observation that set it; no Send leaves before the deadline that
      stood when it was written ahead; and a delivered or uncertain checkpoint makes no other call
      before its deadline. */
  lemma Backoff(w: World, acts: seq<Action>, v: World, s: string, past: History, e: Event)
    requires Init(w) && Reaches(w, acts, v) && s in v.cells && s in w.cells
    requires Prefix(Then(past, e), v.cells[s].hist)
    ensures e.Persisted? && e.cp.Terminal() ==> e.cp.nextRetryAt.None?
    ensures e.Persisted? && (e.cp.state.StateWaitingRetry? || e.cp.state.StateDeliveryUncertain?)
            ==> e.cp.nextRetryAt.Some?
    ensures e.Persisted? && e.cp.nextRetryAt.Some?
            ==> e.cp.nextRetryAt.value == e.cp.lastObserved + e.delay > e.cp.lastObserved
    ensures IsSend(e) ==> !Previous(past).NotYetDue(e.at)
    ensures e.Called? && e.caller.ByStep? && !IsSend(e)
            && (Current(past).state.StateDelivered? || Current(past).state.StateDeliveryUncertain?)
            ==> !Current(past).NotYetDue(e.at)
  {
    EveryRunIsLawful(w, acts, v, s);
    LawfulPrefix(Then(past, e), v.cells[s].hist);
  }

  // ----- reasons -----

  /** Every reason on disk is true: it is what the answer right before the write says, and state,
      turn and attempts follow from that answer; only a Cancel's first mark and a Step's new date on
      a finished task are written without one. */
  lemma ReasonsAreTrue(w: World, acts: seq<Action>, v: World, s: string, past: History, e: Event)
    requires Init(w) && Reaches(w, acts, v) && s in v.cells && s in w.cells
    requires Prefix(Then(past, e), v.cells[s].hist) && e.Persisted?
    ensures Explained(past, e.caller, e.cp)
    ensures e.caller.ByStep? && e.cp.state != Current(past).state
            ==> past.Then? && past.last.Answered? && AnswerOk(past.past, past.last.req, past.last.ans)
                && Justified(ByStep, Current(past), past.last.req, past.last.ans, e.cp)
  {
    EveryRunIsLawful(w, acts, v, s);
    LawfulPrefix(Then(past, e), v.cells[s].hist);
  }

  lemma StepSaysOneThing(past: History, delay: int, a: Checkpoint, b: Checkpoint)
    requires Lawful(past) && !Current(past).Terminal()
    requires WriteOk(past, ByStep, delay, a) && WriteOk(past, ByStep, delay, b)
    ensures a == b
  {
    assert past.last.Answered?;
    var disk, req, ans := Current(past), past.last.req, past.last.ans;
    assert JustifiedStep(disk, req, ans, a) && JustifiedStep(disk, req, ans, b);
    assert a.lastErrorKind == b.lastErrorKind by {
      OneReason(disk, req, ans, a, b);
    }
  }

  /** An answer gives one reason. */
  lemma OneReason(disk: Checkpoint, req: Request, ans: Answer, a: Checkpoint, b: Checkpoint)
    requires JustifiedStep(disk, req, ans, a) && JustifiedStep(disk, req, ans, b)
    requires a.task == b.task && a.attempts == b.attempts && Fits(req, ans)
    ensures a.lastErrorKind == b.lastErrorKind
  {
  }

  lemma CancelSaysOneThing(past: History, delay: int, a: Checkpoint, b: Checkpoint)
    requires Lawful(past) && WriteOk(past, ByCancel, delay, a) && WriteOk(past, ByCancel, delay, b)
    requires !IsMark(Current(past), a) && !IsMark(Current(past), b)
    ensures a == b
  {
    assert past.last.Answered?;
  }

  /** The answer right before a write leaves no choice: it fixes every field of the record, the date, the
      deadline and the reason included. */
  lemma AnswerSaysOneThing(past: History, caller: Caller, delay: int, a: Checkpoint, b: Checkpoint)
    requires Lawful(past) && WriteOk(past, caller, delay, a) && WriteOk(past, caller, delay, b)
    requires caller.ByStep? ==> !Current(past).Terminal()
    requires caller.ByCancel? ==> !IsMark(Current(past), a) && !IsMark(Current(past), b)
    ensures a == b
  {
    hide WriteOk, IsMark;
    if caller.ByStep? {
      StepSaysOneThing(past, delay, a, b);
    } else {
      CancelSaysOneThing(past, delay, a, b);
    }
  }

  /** The other writes, a Step's new date and a Cancel's first mark, are fixed up to their date. */
  lemma DatesApart(past: History, caller: Caller, delay: int, a: Checkpoint, b: Checkpoint)
    requires Lawful(past) && WriteOk(past, caller, delay, a) && WriteOk(past, caller, delay, b)
    requires if caller.ByStep? then Current(past).Terminal() else IsMark(Current(past), a) && IsMark(Current(past), b)
    ensures a == b.(lastObserved := a.lastObserved)
  {
    LawfulCurrentOk(past);
  }

  predicate OwnTurn(past: History, req: Request) {
    var disk := Current(past);
    && req.ReqStop? && req.sessionID == disk.task.sessionID && req.turnID == disk.aoTurnID
    && disk.task.sessionExclusive && disk.task.runOwner != ""
  }

  lemma StopInOrder(past: History, e: Event)
    requires Lawful(Then(past, e)) && e.Called? && e.req.ReqStop?
    ensures e.caller.ByCancel? && CancelSeen(past) && Current(past).state.StateCancelUnconfirmed?
    ensures OwnTurn(past, e.req)
    ensures JustObserved(past) && !Settles(past.last.ans.obs)
    ensures past.last.req == ReqObserve(e.req.sessionID, e.req.turnID)
  {
    assert Lawful(past) && Ready(past, e.caller, e.req) && CallOk(past, e.caller, e.at);
    hide Lawful, CallOk, CheckpointOk;
    AnsweredCall(past);
  }

  /** A stop goes out only from a Cancel whose mark is on disk, for the turn on disk of a session the
      run owns alone, right after AO showed that turn unsettled. */
  lemma StopOnlyOwnTurn(w: World, acts: seq<Action>, v: World, s: string, past: History, e: Event)
    requires Init(w) && Reaches(w, acts, v) && s in v.cells && s in w.cells
    requires Prefix(Then(past, e), v.cells[s].hist) && e.Called? && e.req.ReqStop?
    ensures e.caller.ByCancel? && CancelSeen(past) && Current(past).state.StateCancelUnconfirmed?
    ensures OwnTurn(past, e.req)
    ensures JustObserved(past) && !Settles(past.last.ans.obs)
            && past.last.req == ReqObserve(e.req.sessionID, e.req.turnID)
  {
    EveryRunIsLawful(w, acts, v, s);
    LawfulPrefix(Then(past, e), v.cells[s].hist);
    StopInOrder(past, e);
  }

  // ----- leases -----

  /** At most one process is inside Step or Cancel for a run owner and task, whichever checkpoint
      files the two name; and the key a process locked, taken from an unlocked read, is the key of
      the checkpoint it works on. */
  lemma LeaseExcludes(w: World, acts: seq<Action>, v: World, p: nat, q: nat)
    requires Init(w) && Reaches(w, acts, v) && p in v.procs && q in v.procs
    requires Engaged(v.procs[p].phase) && Engaged(v.procs[q].phase)
    ensures v.procs[p].store in v.cells && HeldKey(v.procs[p].phase) == KeyOf(v.cells[v.procs[p].store].disk.task)
    ensures v.procs[q].store in v.cells && HeldKey(v.procs[q].phase) == KeyOf(v.cells[v.procs[q].store].disk.task)
    ensures KeyOf(v.cells[v.procs[p].store].disk.task) == KeyOf(v.cells[v.procs[q].store].disk.task) ==> p == q
  {
    hide StoreInv, BodyInv;
    InitInv(w);
    RunsKeepInv(w, acts, v);
    assert ProcInv(v, p) && ProcInv(v, q);
    if KeyOf(v.cells[v.procs[p].store].disk.task) == KeyOf(v.cells[v.procs[q].store].disk.task) {
      LeaseNamesOneHolder(v, p, q);
    }
  }

  /** Actions of a process itself. */
  predicate ActsItself(a: Action, q: nat) {
    match a
    case Spawn(p, _, _) => p == q
    case Begin(p, _) => p == q
    case Reply(p, _) => p == q
    case Crash(p, _) => p == q
    case ClearLease(_) => false
  }

  lemma StoresApart(v: World, p: nat, q: nat)
    requires Inv(v) && p in v.procs && q in v.procs && p != q
    requires Engaged(v.procs[p].phase) && Engaged(v.procs[q].phase)
    ensures v.procs[p].store != v.procs[q].store
  {
    hide StoreInv, BodyInv;
    assert ProcInv(v, p) && ProcInv(v, q);
    if HeldKey(v.procs[p].phase).Name() == HeldKey(v.procs[q].phase).Name() {
      LeaseNamesOneHolder(v, p, q);
    }
  }

  /** Only a process inside a body, or a crash of one, touches a checkpoint or its history. */
  lemma OthersElsewhere(v: World, q: nat, a: Action)
    requires Inv(v) && q in v.procs && Engaged(v.procs[q].phase) && Enabled(v, a) && !ActsItself(a, q)
    ensures v.procs[q].store in v.cells
    ensures Apply(v, a).cells[v.procs[q].store] == v.cells[v.procs[q].store]
  {
    hide StoreInv, BodyInv, BodyResume, CellAfter, PhaseResume;
    assert ProcInv(v, q);
    if (a.Reply? || a.Crash?) && v.procs[a.p].phase.Running? {
      assert ProcInv(v, a.p);
      StoresApart(v, a.p, q);
    }
  }

  /** From the creation of its lease file to the release a process has its checkpoint for itself: no
      action of anybody else, a crash included, touches file or history. And however much others do
      between its unlocked read and that creation, the key it read is the checkpoint's. */
  lemma HolderActsAlone(w: World, acts: seq<Action>, v: World, q: nat, a: Action)
    requires Init(w) && Reaches(w, acts, v) && q in v.procs && Enabled(v, a) && !ActsItself(a, q)
    ensures v.procs[q].store in v.cells
    ensures Engaged(v.procs[q].phase) ==> Apply(v, a).cells[v.procs[q].store] == v.cells[v.procs[q].store]
    ensures v.procs[q].phase.AcquireCreate?
            ==> v.procs[q].phase.key == KeyOf(v.cells[v.procs[q].store].disk.task)
  {
    hide StoreInv, BodyInv, Apply;
    InitInv(w);
    RunsKeepInv(w, acts, v);
    assert ProcInv(v, q);
    if Engaged(v.procs[q].phase) {
      OthersElsewhere(v, q, a);
    }
  }

  lemma RemovedByCreator(v: World, p: nat, ans: Answer, name: string)
    requires Inv(v) && Enabled(v, Reply(p, ans)) && name in v.leases && name !in Apply(v, Reply(p, ans)).leases
    ensures v.leases[name].creator == p
  {
    hide StoreInv, BodyInv, BodyResume, CellAfter;
    assert ProcInv(v, p);
  }

  lemma OwnRecordRead(v: World, p: nat, ans: Answer)
    requires Inv(v) && Enabled(v, Reply(p, ans)) && v.procs[p].phase.ReleaseRead? && ans.LeaseContent?
    ensures Holds(v.procs[p].cfg, v.procs[p].phase.key, ans.content)
  {
    hide StoreInv, BodyInv;
    assert ProcInv(v, p);
  }

  /** A lease file is removed only by the process that created it, or by the operator; and the
      check before the removal never finds somebody else's record. */
  lemma ReleaseRemovesOwnLease(w: World, acts: seq<Action>, v: World, p: nat, ans: Answer, name: string)
    requires Init(w) && Reaches(w, acts, v) && Enabled(v, Reply(p, ans))
    ensures name in v.leases && name !in Apply(v, Reply(p, ans)).leases ==> v.leases[name].creator == p
    ensures v.procs[p].phase.ReleaseRead? && ans.LeaseContent?
            ==> Holds(v.procs[p].cfg, v.procs[p].phase.key, ans.content)
  {
    hide Inv, Init, Apply, Holds;
    InitInv(w);
    RunsKeepInv(w, acts, v);
    if name in v.leases && name !in Apply(v, Reply(p, ans)).leases {
      RemovedByCreator(v, p, ans, name);
    }
    if v.procs[p].phase.ReleaseRead? && ans.LeaseContent? {
      OwnRecordRead(v, p, ans);
    }
  }
}
