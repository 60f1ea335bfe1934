/** The dispatcher against the real adapter. What the adapter never answers closes some of the
    dispatcher's branches. */
module AdapterComposition {
  import opened CheckpointModel
  import opened DispatcherMachine
  import opened DeliveryHistory
  import opened LocalSafety
  import opened DeliveryWorld
  import opened DeliveryGuarantees
  import opened AoAdapter

  /** The answers the adapter can give: without a turn handle it reports NOT_FOUND, it knows no
      reserved delivery and no human stop, and its receipts always name a turn. */
  predicate AdapterAnswers(req: Request, ans: Answer) {
    match req
    case ReqObserve(_, turnID) =>
      ans.Observed? ==>
        && !ans.obs.humanStopped
        && !ans.obs.delivery.DeliveryReserved?
        && (ans.obs.sessionExists && turnID == "" ==> ans.obs.delivery.DeliveryNotFound?)
    case ReqSendReply(_) => ans.Receipt? ==> ans.receipt.turnID != ""
    case ReqRecoverOnly(_, _) => ans.Receipt? ==> ans.receipt.turnID != ""
    case _ => true
  }

  /** Observe keeps to that. */
  method ObserveAsAdapter(session: SessionRead, server: Server, decode: Decoder, sessionID: string, handle: string)
    returns (ans: Answer)
    ensures Fits(ReqObserve(sessionID, handle), ans)
    ensures AdapterAnswers(ReqObserve(sessionID, handle), ans)
  {
    ans := Observe(session, server, decode, handle);
  }

  /** Send and RecoverOnly keep to that. */
  lemma DeliveriesAsAdapter(recoverOnly: bool, reply: PostReply, req: Request)
    requires if recoverOnly then req.ReqRecoverOnly? else req.ReqSendReply?
    ensures Fits(req, SteerOrSend(recoverOnly, reply)) && AdapterAnswers(req, SteerOrSend(recoverOnly, reply))
  {
  }

  /** The interrupt of a run's Stop is posted only when the whole history has exactly one live turn
      and it is the turn on disk, of a session the run owns alone, with the Cancel's mark already on
      disk. */
  method InterruptOnlyOwnSoleTurn(ghost w: World, ghost acts: seq<Action>, ghost v: World, ghost s: string,
                                  ghost past: History, ghost e: Event, turn: string, session: SessionRead,
                                  first: Server, second: Server, decode: Decoder, reply: PostReply)
    returns (err: Option<Error>, interrupted: bool)
    requires Init(w) && Reaches(w, acts, v) && s in v.cells && s in w.cells
    requires Prefix(Then(past, e), v.cells[s].hist)
    requires e.Called? && e.req.ReqStop? && e.req.turnID == turn
    ensures Fits(e.req, if err.Some? then Failed(err.value) else Ack)
    ensures interrupted ==> var disk := Current(past);
            && SoleLive(second, disk.aoTurnID) && Active(first, disk.aoTurnID)
            && CancelSeen(past) && disk.state.StateCancelUnconfirmed?
            && disk.task.sessionExclusive && disk.task.runOwner != ""
  {
    StopOnlyOwnTurn(w, acts, v, s, past, e);
    err, interrupted := Stop(session, first, second, decode, turn, reply);
  }

  // ----- invariants -----

  /** Only a delivered task of a live checkpoint knows its turn. */
  predicate TurnKnown(cp: Checkpoint) {
    && (cp.state.StatePending? || cp.state.StateWaitingRetry? || cp.state.StateDeliveryUncertain?
        ==> cp.aoTurnID == "")
    && (cp.state.StateDelivered? ==> cp.aoTurnID != "")
  }

  predicate TurnInv(disk: Checkpoint, body: Body) {
    TurnKnown(disk) &&
    match body
    case SaveAndReturn(_, cp, _) => TurnKnown(cp)
    case ReadClock(cp) => TurnKnown(cp)
    case ReadArtifact(cp, _) => TurnKnown(cp) && !cp.Terminal()
    case ObserveDelivery(cp, _) => TurnKnown(cp) && !cp.Terminal()
    case Recover(cp, _, unconfirmed) =>
      TurnKnown(cp) && cp.state.StateDeliveryUncertain? && unconfirmed.DeliveryNotConfirmed?
    case Preflight(cp, _) => TurnKnown(cp) && cp.aoTurnID == ""
    case WriteAhead(cp, _) => TurnKnown(cp) && cp.aoTurnID == ""
    case IssueSend(cp, _) => TurnKnown(cp) && cp.aoTurnID == ""
    case AwaitSend(cp, _) => TurnKnown(cp) && cp.aoTurnID == ""
    case MarkCancelled(cp) => cp.state.StateCancelUnconfirmed?
    case CancelRecover(cp) => cp.state.StateCancelUnconfirmed?
    case SaveTurn(cp) => cp.state.StateCancelUnconfirmed?
    case CancelObserve(cp) => cp.state.StateCancelUnconfirmed?
    case StopTurn(cp) => cp.state.StateCancelUnconfirmed?
    case ObserveAfterFailedStop(cp, _) => cp.state.StateCancelUnconfirmed?
    case ObserveAfterStop(cp) => cp.state.StateCancelUnconfirmed?
    case _ => true
  }

  lemma ObserveKeepsTurn(delay: int, cp: Checkpoint, now: int, ans: Answer)
    requires TurnKnown(cp) && !cp.Terminal() && (ans.Observed? || ans.Failed?)
    requires AdapterAnswers(ReqObserve("", cp.aoTurnID), ans)
    ensures TurnInv(cp, AfterObserve(delay, cp, now, ans))
  {
  }

  lemma TurnKept(delay: int, disk: Checkpoint, body: Body, ans: Answer)
    requires TurnInv(disk, body) && Honest(disk, BodyRequest(body), ans) && AdapterAnswers(BodyRequest(body), ans)
    ensures TurnInv(DiskAfter(disk, BodyRequest(body), ans), BodyResume(delay, body, ans))
  {
    match body
    case ObserveDelivery(cp, now) => ObserveKeepsTurn(delay, cp, now, ans);
    case _ =>
  }

  /** All answers of AO in the run are the adapter's. */
  predicate FromAdapter(w: World, acts: seq<Action>)
    decreases |acts|
  {
    acts != [] ==>
      && Enabled(w, acts[0])
      && (acts[0].Reply? ==> AdapterAnswers(w.procs[acts[0].p].Request(), acts[0].ans))
      && FromAdapter(Apply(w, acts[0]), acts[1..])
  }

  predicate ProcTurn(w: World, p: nat)
    requires p in w.procs
  {
    var q := w.procs[p];
    q.store in w.cells && (q.phase.Running? ==> TurnInv(w.cells[q.store].disk, q.phase.body))
  }

  predicate WorldTurn(w: World) {
    && (forall s | s in w.cells :: TurnKnown(w.cells[s].disk))
    && (forall p | p in w.procs :: ProcTurn(w, p))
  }

  lemma StartTurn(disk: Checkpoint, call: Call)
    requires TurnKnown(disk)
    ensures TurnInv(disk, Start(call))
  {
  }

  lemma RunningTurn(disk: Checkpoint, body: Body)
    requires TurnInv(disk, body)
    ensures TurnKnown(disk)
  {
  }

  lemma ReplyKeepsTurn(w: World, p: nat, ans: Answer)
    requires Inv(w) && WorldTurn(w) && Enabled(w, Reply(p, ans)) && AdapterAnswers(w.procs[p].Request(), ans)
    ensures WorldTurn(ApplyReply(w, p, ans))
  {
    hide StoreInv, BodyInv, TurnInv, TurnKnown, BodyResume, HistAfter;
    var v := ApplyReply(w, p, ans);
    var q := w.procs[p];
    var disk := w.cells[q.store].disk;
    assert ProcInv(w, p) && ProcTurn(w, p);
    if q.phase.Running? {
      TurnKept(q.cfg.Delay(), disk, q.phase.body, ans);
      RunningTurn(DiskAfter(disk, q.Request(), ans), BodyResume(q.cfg.Delay(), q.phase.body, ans));
    } else if q.phase.AcquireWrite? {
      StartTurn(disk, q.phase.call);
    }
    forall r | r in v.procs
      ensures ProcTurn(v, r)
    {
      if r != p {
        assert ProcInv(w, r) && ProcTurn(w, r);
        if w.procs[r].phase.Running? && q.phase.Running? && w.procs[r].store == q.store {
          LeaseNamesOneHolder(w, p, r);
        }
      }
    }
  }

  lemma CrashKeepsTurn(w: World, p: nat, left: bool)
    requires Inv(w) && WorldTurn(w) && Enabled(w, Crash(p, left))
    ensures WorldTurn(ApplyCrash(w, p, left))
  {
    hide Inv, TurnInv, TurnKnown;
    var v := ApplyCrash(w, p, left);
    forall r | r in v.procs
      ensures ProcTurn(v, r)
    {
      assert ProcTurn(w, r);
    }
  }

  lemma ActionKeepsTurn(w: World, a: Action)
    requires Inv(w) && WorldTurn(w) && Enabled(w, a)
    requires a.Reply? ==> AdapterAnswers(w.procs[a.p].Request(), a.ans)
    ensures WorldTurn(Apply(w, a))
  {
    if a.Reply? {
      ReplyKeepsTurn(w, a.p, a.ans);
    } else if a.Crash? {
      CrashKeepsTurn(w, a.p, a.left);
    } else {
      hide StoreInv, BodyInv, TurnInv, TurnKnown;
      var v := Apply(w, a);
      forall r | r in v.procs
        ensures ProcTurn(v, r)
      {
        if r in w.procs {
          assert ProcTurn(w, r) && ProcInv(w, r);
        }
      }
    }
  }

  lemma {:induction false} RunsKeepTurn(w: World, acts: seq<Action>, v: World)
    requires Inv(w) && WorldTurn(w) && Reaches(w, acts, v) && FromAdapter(w, acts)
    ensures Inv(v) && WorldTurn(v)
    decreases |acts|
  {
    if acts != [] {
      ActionKeepsInv(w, acts[0]);
      ActionKeepsTurn(w, acts[0]);
      RunsKeepTurn(Apply(w, acts[0]), acts[1..], v);
    }
  }

  lemma RecoverTurn(disk: Checkpoint, body: Body)
    requires TurnInv(disk, body) && body.Recover?
    ensures body.cp.state.StateDeliveryUncertain? && body.unconfirmed.DeliveryNotConfirmed?
  {
  }

  lemma InitTurn(w: World)
    requires Init(w)
    ensures WorldTurn(w)
  {
  }

  /** With the real adapter, PENDING, WAITING_RETRY and DELIVERY_UNCERTAIN never know a turn and
      DELIVERED always does; and a process recovers only an uncertain delivery: the branch for a
      reserved one is never taken. */
  lemma TurnsWithAdapter(w: World, acts: seq<Action>, v: World)
    requires Init(w) && Reaches(w, acts, v) && FromAdapter(w, acts)
    ensures forall s | s in v.cells :: TurnKnown(v.cells[s].disk)
    ensures forall p | p in v.procs && v.procs[p].phase.Running? && v.procs[p].phase.body.Recover? ::
              v.procs[p].phase.body.cp.state.StateDeliveryUncertain?
              && v.procs[p].phase.body.unconfirmed.DeliveryNotConfirmed?
  {
    hide StoreInv, BodyInv, TurnInv, TurnKnown, Fresh;
    InitInv(w);
    InitTurn(w);
    RunsKeepTurn(w, acts, v);
    forall p | p in v.procs && v.procs[p].phase.Running? && v.procs[p].phase.body.Recover?
      ensures v.procs[p].phase.body.cp.state.StateDeliveryUncertain?
              && v.procs[p].phase.body.unconfirmed.DeliveryNotConfirmed?
    {
      assert ProcTurn(v, p);
      RecoverTurn(v.cells[v.procs[p].store].disk, v.procs[p].phase.body);
    }
  }
}
