/** The guarantees are about runs that exist: a fresh task can be sent, refused, sent again and
    completed, and a task without attempts left can end above its budget. */
module DeliveryWitness {
  import opened CheckpointModel
  import opened DispatcherMachine
  import opened DeliveryHistory
  import opened LocalSafety
  import opened DeliveryWorld

  // ----- one body, answer by answer -----

  /** A checkpoint and the program point of the call that works on it. */
  datatype Spot = Spot(cell: Cell, body: Body)

  /** The answers lead from `x` to `y`. */
  predicate Plays(delay: int, x: Spot, answers: seq<Answer>, y: Spot)
    decreases |answers|
  {
    if answers == [] then x == y
    else
      var ans := answers[0];
      && Honest(x.cell.disk, BodyRequest(x.body), ans)
      && Plays(delay, Spot(CellAfter(delay, x.cell, x.body, ans), BodyResume(delay, x.body, ans)), answers[1..], y)
  }

  lemma {:induction false} PlayOn(delay: int, x: Spot, a: seq<Answer>, y: Spot, b: seq<Answer>, z: Spot)
    requires Plays(delay, x, a, y) && Plays(delay, y, b, z)
    ensures Plays(delay, x, a + b, z)
    decreases |a|
  {
    hide CellAfter, BodyResume;
    if a == [] {
      assert a + b == b;
    } else {
      assert (a + b)[1..] == a[1..] + b;
      PlayOn(delay, Spot(CellAfter(delay, x.cell, x.body, a[0]), BodyResume(delay, x.body, a[0])), a[1..], y, b, z);
    }
  }

  lemma PlayOne(delay: int, x: Spot, ans: Answer, y: Spot, b: seq<Answer>, z: Spot)
    requires Honest(x.cell.disk, BodyRequest(x.body), ans)
    requires y == Spot(CellAfter(delay, x.cell, x.body, ans), BodyResume(delay, x.body, ans))
    requires Plays(delay, y, b, z)
    ensures Plays(delay, x, [ans] + b, z)
  {
    assert ([ans] + b)[1..] == b;
  }

  function Artifact(task: Task): Answer {
    ArtifactSeen(ArtifactObservation(task.artifactSHA256, task.gitHead, task.sessionBranch))
  }

  const MISSING := Observed(Observation(true, false, DeliveryNotFound, None))

  function Finds(task: Task): Answer {
    Observed(Observation(true, false, DeliveryCompleted, Some(TaskReceipt(task.taskID, task.artifactSHA256, true))))
  }

  /** The clock says `now`, and the artifact is the task's. */
  lemma Looks(delay: int, cell: Cell, now: int) returns (answers: seq<Answer>, y: Spot)
    requires cell.disk.Valid() && !cell.disk.Terminal()
    requires cell.disk.state.StateDeliveryUncertain? || cell.disk.state.StateDelivered? ==> !cell.disk.NotYetDue(now)
    ensures Plays(delay, Spot(cell, LoadForStep), answers, y)
    ensures y.body == ObserveDelivery(cell.disk.(lastObserved := now), now) && y.cell.disk == cell.disk
    ensures SendCount(y.cell.hist) == SendCount(cell.hist)
  {
    var cp := cell.disk.(lastObserved := now);
    var last := Spot(cell, ReadArtifact(cp, now));
    y := Spot(CellAfter(delay, cell, last.body, Artifact(cp.task)), ObserveDelivery(cp, now));
    hide Plays;
    NothingMore(delay, y);
    PlayOne(delay, last, Artifact(cp.task), y, [], y);
    PlayOne(delay, Spot(cell, ReadClock(cell.disk)), Time(now), last, [Artifact(cp.task)] + [], y);
    answers := [Loaded(cell.disk)] + ([Time(now)] + ([Artifact(cp.task)] + []));
    PlayOne(delay, Spot(cell, LoadForStep), Loaded(cell.disk), Spot(cell, ReadClock(cell.disk)),
            [Time(now)] + ([Artifact(cp.task)] + []), y);
  }

  lemma NothingMore(delay: int, y: Spot)
    ensures Plays(delay, y, [], y)
  {
  }

  /** AO knows no turn, and the preflight goes through. */
  lemma Prepares(delay: int, cell: Cell, cp: Checkpoint, now: int) returns (answers: seq<Answer>, y: Spot)
    requires cp == cell.disk.(lastObserved := now) && cp.attempts < cp.task.retryBudget
    requires cp.state.StatePending? || (cp.state.StateWaitingRetry? && !cp.NotYetDue(now))
    ensures Plays(delay, Spot(cell, ObserveDelivery(cp, now)), answers, y)
    ensures y.body == WriteAhead(InFlight(cp, now + delay), now) && y.cell.disk == cell.disk
    ensures SendCount(y.cell.hist) == SendCount(cell.hist)
  {
    var a := Spot(CellAfter(delay, cell, ObserveDelivery(cp, now), MISSING), Preflight(cp, now));
    y := Spot(CellAfter(delay, a.cell, a.body, Ack), WriteAhead(InFlight(cp, now + delay), now));
    assert SendCount(y.cell.hist) == SendCount(a.cell.hist) == SendCount(cell.hist);
    hide Plays, SendCount;
    NothingMore(delay, y);
    PlayOne(delay, a, Ack, y, [], y);
    answers := [MISSING] + ([Ack] + []);
    PlayOne(delay, Spot(cell, ObserveDelivery(cp, now)), MISSING, a, [Ack] + [], y);
  }

  /** The record is written ahead, and the Send leaves. */
  lemma Leaves(delay: int, cell: Cell, sent: Checkpoint, now: int) returns (answers: seq<Answer>, y: Spot)
    requires sent.Valid()
    ensures Plays(delay, Spot(cell, WriteAhead(sent, now)), answers, y)
    ensures y.body == AwaitSend(sent, now) && y.cell.disk == sent
    ensures SendCount(y.cell.hist) == SendCount(cell.hist) + 1
  {
    var a := Spot(CellAfter(delay, cell, WriteAhead(sent, now), Ack), IssueSend(sent, now));
    y := Spot(CellAfter(delay, a.cell, a.body, Ack), AwaitSend(sent, now));
    assert SendCount(a.cell.hist) == SendCount(cell.hist);
    hide Plays;
    NothingMore(delay, y);
    PlayOne(delay, a, Ack, y, [], y);
    answers := [Ack] + ([Ack] + []);
    PlayOne(delay, Spot(cell, WriteAhead(sent, now)), Ack, a, [Ack] + [], y);
  }

  lemma Sends(delay: int, cell: Cell, cp: Checkpoint, now: int) returns (answers: seq<Answer>, y: Spot)
    requires cp == cell.disk.(lastObserved := now) && cp.Valid() && cp.attempts < cp.task.retryBudget
    requires cp.state.StatePending? || (cp.state.StateWaitingRetry? && !cp.NotYetDue(now))
    ensures Plays(delay, Spot(cell, ObserveDelivery(cp, now)), answers, y)
    ensures y.body == AwaitSend(InFlight(cp, now + delay), now) && y.cell.disk == InFlight(cp, now + delay)
    ensures SendCount(y.cell.hist) == SendCount(cell.hist) + 1
  {
    hide Plays;
    var prepares, a := Prepares(delay, cell, cp, now);
    var leaves;
    leaves, y := Leaves(delay, a.cell, a.body.cp, now);
    PlayOn(delay, Spot(cell, ObserveDelivery(cp, now)), prepares, a, leaves, y);
    answers := prepares + leaves;
  }

  /** An answer whose consequence is saved, and the end of the body. */
  lemma Ends(delay: int, cell: Cell, body: Body, ans: Answer) returns (answers: seq<Answer>, y: Spot)
    requires Honest(cell.disk, BodyRequest(body), ans) && BodyResume(delay, body, ans).SaveAndReturn?
    requires BodyResume(delay, body, ans).cp.Valid() && !BodyRequest(body).ReqSend? && !BodyRequest(body).ReqSave?
    ensures Plays(delay, Spot(cell, body), answers, y)
    ensures y.body.Finished? && y.cell.disk == BodyResume(delay, body, ans).cp
    ensures SendCount(y.cell.hist) == SendCount(cell.hist)
  {
    var a := Spot(CellAfter(delay, cell, body, ans), BodyResume(delay, body, ans));
    y := Spot(CellAfter(delay, a.cell, a.body, Ack), BodyResume(delay, a.body, Ack));
    assert SendCount(a.cell.hist) == SendCount(cell.hist);
    hide Plays;
    NothingMore(delay, y);
    PlayOne(delay, a, Ack, y, [], y);
    answers := [ans] + ([Ack] + []);
    PlayOne(delay, Spot(cell, body), ans, a, [Ack] + [], y);
  }

  // ----- one process -----

  /** No operator has to step in. */
  predicate Unaided(acts: seq<Action>) {
    forall a :: a in acts ==> !a.ClearLease?
  }

  lemma {:induction false} Extend(w: World, acts: seq<Action>, v: World, a: Action) returns (more: seq<Action>)
    requires Reaches(w, acts, v) && Enabled(v, a)
    ensures Reaches(w, more, Apply(v, a)) && more == acts + [a]
    decreases |acts|
  {
    if acts == [] {
      more := [a];
      assert [a][1..] == [];
    } else {
      var tail := Extend(Apply(w, acts[0]), acts[1..], v, a);
      more := [acts[0]] + tail;
      assert more[1..] == tail;
    }
  }

  /** Process `p` stands at `phase`, on checkpoint `s`. */
  predicate At(w: World, p: nat, s: string, cfg: Config, phase: Phase, cell: Cell) {
    p in w.procs && w.procs[p] == Process(s, cfg, phase) && s in w.cells && w.cells[s] == cell
  }

  /** The process gets the answer `ans` to its next request. */
  lemma Answer(w: World, acts: seq<Action>, v: World, p: nat, s: string, cfg: Config, phase: Phase, cell: Cell,
               ans: Answer)
    returns (more: seq<Action>, next: World)
    requires Reaches(w, acts, v) && At(v, p, s, cfg, phase, cell)
    requires Honest(cell.disk, PhaseRequest(cfg, phase), ans)
    requires ans.LeaseContent? ==> phase.ReleaseRead? && phase.key.Name() in v.leases
                                   && ans.content == v.leases[phase.key.Name()].content
    requires phase.AcquireCreate? ==> ans.Ack? && phase.key.Name() !in v.leases
    ensures Reaches(w, more, next) && Fits(PhaseRequest(cfg, phase), ans)
    ensures At(next, p, s, cfg, PhaseResume(cfg, phase, ans),
               if phase.Running? then CellAfter(cfg.Delay(), cell, phase.body, ans) else cell)
    ensures next.leases == LeasesAfter(v.leases, p, PhaseRequest(cfg, phase), ans)
    ensures Unaided(acts) ==> Unaided(more)
    ensures SameElsewhere(v, next, p, s)
  {
    hide CellAfter, PhaseResume, Reaches;
    var a := Reply(p, ans);
    more := Extend(w, acts, v, a);
    next := Apply(v, a);
  }

  /** The answers lead the process from one program point to another, under its lease. */
  lemma {:induction false} PlayOut(w: World, acts: seq<Action>, v: World, p: nat, s: string, cfg: Config,
                                   key: LeaseKey, x: Spot, answers: seq<Answer>, y: Spot)
    returns (more: seq<Action>, next: World)
    requires Reaches(w, acts, v) && At(v, p, s, cfg, Leave(Some(key), x.body), x.cell)
    requires Plays(cfg.Delay(), x, answers, y)
    ensures Reaches(w, more, next) && At(next, p, s, cfg, Leave(Some(key), y.body), y.cell)
    ensures next.leases == v.leases && (Unaided(acts) ==> Unaided(more))
    decreases |answers|
  {
    hide CellAfter, BodyResume, Reaches;
    more, next := acts, v;
    if answers != [] {
      var ans := answers[0];
      more, next := Answer(w, acts, v, p, s, cfg, Running(Some(key), x.body), x.cell, ans);
      var z := Spot(CellAfter(cfg.Delay(), x.cell, x.body, ans), BodyResume(cfg.Delay(), x.body, ans));
      more, next := PlayOut(w, more, next, p, s, cfg, key, z, answers[1..], y);
    }
  }

  /** The process is between two calls, and nobody holds the task's lease. */
  predicate Idle(w: World, p: nat, s: string, cfg: Config, cell: Cell) {
    && p in w.procs && w.procs[p].phase.Returned? && At(w, p, s, cfg, w.procs[p].phase, cell)
    && cfg.leased && cfg.ownerID != "" && cell.disk.Valid() && cell.disk.task.runOwner != ""
    && KeyOf(cell.disk.task).Name() !in w.leases
  }

  lemma Hired(w: World, p: nat, s: string, cfg: Config) returns (acts: seq<Action>, v: World)
    requires s in w.cells && p !in w.procs && cfg.leased && cfg.pid == p && cfg.ownerID != ""
    requires w.cells[s].disk.Valid() && w.cells[s].disk.task.runOwner != ""
    requires KeyOf(w.cells[s].disk.task).Name() !in w.leases
    ensures Reaches(w, acts, v) && Idle(v, p, s, cfg, w.cells[s]) && Unaided(acts)
    ensures v == w.(procs := w.procs[p := Process(s, cfg, Returned(Outcome(None, None)))])
  {
    acts := Extend(w, [], w, Spawn(p, s, cfg));
    v := Apply(w, Spawn(p, s, cfg));
  }

  /** The rest of the world. */
  predicate SameElsewhere(v: World, next: World, p: nat, s: string) {
    && next.procs.Keys == v.procs.Keys && next.cells.Keys == v.cells.Keys
    && (forall q :: q in v.procs && q != p ==> next.procs[q] == v.procs[q])
    && (forall r :: r in v.cells && r != s ==> next.cells[r] == v.cells[r])
  }

  /** The process begins a Step and reads whose lease it needs. */
  lemma Begun(w: World, acts: seq<Action>, v: World, p: nat, s: string, cfg: Config, cell: Cell)
    returns (more: seq<Action>, next: World)
    requires Reaches(w, acts, v) && Idle(v, p, s, cfg, cell)
    ensures Reaches(w, more, next) && At(next, p, s, cfg, AcquireCreate(StepCall, KeyOf(cell.disk.task)), cell)
    ensures next.leases == v.leases && SameElsewhere(v, next, p, s)
    ensures Unaided(acts) ==> Unaided(more)
  {
    hide Reaches, BodyResume, CellAfter;
    more := Extend(w, acts, v, Begin(p, StepCall));
    next := Apply(v, Begin(p, StepCall));
    more, next := Answer(w, more, next, p, s, cfg, AcquireLoad(StepCall), cell, Loaded(cell.disk));
  }

  /** It takes the lease. */
  lemma Acquired(w: World, acts: seq<Action>, v: World, p: nat, s: string, cfg: Config, cell: Cell)
    returns (more: seq<Action>, next: World)
    requires Reaches(w, acts, v) && Idle(v, p, s, cfg, cell)
    ensures var key := KeyOf(cell.disk.task);
            && Reaches(w, more, next) && At(next, p, s, cfg, Running(Some(key), LoadForStep), cell)
            && next.leases == v.leases[key.Name() := LeaseFile(Some(cfg.Record(key)), p)]
    ensures SameElsewhere(v, next, p, s) && (Unaided(acts) ==> Unaided(more))
  {
    hide Reaches, BodyResume, CellAfter, Unaided, LeaseKey.Name;
    var key := KeyOf(cell.disk.task);
    more, next := Begun(w, acts, v, p, s, cfg, cell);
    more, next := Answer(w, more, next, p, s, cfg, AcquireCreate(StepCall, key), cell, Ack);
    more, next := Answer(w, more, next, p, s, cfg, AcquireWrite(StepCall, key), cell, Ack);
  }

  /** A whole Step: lease, body, release. */
  lemma WholeStep(w: World, acts: seq<Action>, v: World, p: nat, s: string, cfg: Config, cell: Cell,
                  answers: seq<Answer>, y: Spot)
    returns (more: seq<Action>, next: World)
    requires Reaches(w, acts, v) && Idle(v, p, s, cfg, cell)
    requires Plays(cfg.Delay(), Spot(cell, LoadForStep), answers, y) && y.body.Finished?
    requires y.cell.disk.Valid() && y.cell.disk.task == cell.disk.task
    ensures Reaches(w, more, next) && Idle(next, p, s, cfg, y.cell)
    ensures Unaided(acts) ==> Unaided(more)
  {
    hide Reaches, BodyResume, CellAfter, Plays;
    var key := KeyOf(cell.disk.task);
    more, next := Acquired(w, acts, v, p, s, cfg, cell);
    more, next := PlayOut(w, more, next, p, s, cfg, key, Spot(cell, LoadForStep), answers, y);
    more, next := Answer(w, more, next, p, s, cfg, ReleaseRead(key, y.body.out), y.cell,
                         LeaseContent(Some(cfg.Record(key))));
    more, next := Answer(w, more, next, p, s, cfg, ReleaseRemove(key, y.body.out), y.cell, Ack);
  }

  // ----- the runs -----

  /** A world in which `p` can begin to work on the fresh checkpoint `s`. */
  predicate CanBegin(w: World, p: nat, s: string, cfg: Config) {
    && Init(w) && s in w.cells && cfg.leased && cfg.pid == p && cfg.ownerID != ""
    && w.cells[s].disk.task.runOwner != "" && KeyOf(w.cells[s].disk.task).Name() !in w.leases
  }

  /** From any initial world, a fresh task with an owner and an attempt left reaches a Send. */
  lemma FreshTaskCanBeSent(w: World, p: nat, s: string, cfg: Config) returns (acts: seq<Action>, v: World)
    requires CanBegin(w, p, s, cfg) && w.cells[s].disk.attempts < w.cells[s].disk.task.retryBudget
    ensures Reaches(w, acts, v) && s in v.cells && SendCount(v.cells[s].hist) == 1
  {
    hide Reaches, Plays, Unaided, SameElsewhere;
    var cell, delay := w.cells[s], cfg.Delay();
    acts, v := Hired(w, p, s, cfg);
    acts, v := Acquired(w, acts, v, p, s, cfg, cell);
    var answers, y := Looks(delay, cell, 0);
    var more, z := Sends(delay, y.cell, y.body.cp, 0);
    PlayOn(delay, Spot(cell, LoadForStep), answers, y, more, z);
    acts, v := PlayOut(w, acts, v, p, s, cfg, KeyOf(cell.disk.task), Spot(cell, LoadForStep), answers + more, z);
  }

  /** A fresh task whose attempts are used up ends above its budget when AO cannot be observed. */
  lemma BudgetCanBeExceeded(w: World, p: nat, s: string, cfg: Config) returns (acts: seq<Action>, v: World)
    requires CanBegin(w, p, s, cfg) && w.cells[s].disk.attempts == w.cells[s].disk.task.retryBudget
    ensures Reaches(w, acts, v) && s in v.cells
    ensures v.cells[s].disk.attempts == w.cells[s].disk.task.retryBudget + 1
  {
    hide Reaches, Plays, CellAfter;
    var cell, delay := w.cells[s], cfg.Delay();
    acts, v := Hired(w, p, s, cfg);
    var answers, y := Looks(delay, cell, 0);
    var more, z := Ends(delay, y.cell, y.body, Failed(ErrExternal(0)));
    PlayOn(delay, Spot(cell, LoadForStep), answers, y, more, z);
    acts, v := WholeStep(w, acts, v, p, s, cfg, cell, answers + more, z);
  }

  /** A Step sends, and AO refuses. */
  lemma RefusedStep(delay: int, cell: Cell, now: int) returns (answers: seq<Answer>, y: Spot)
    requires delay > 0 && Fresh(cell.disk) && cell.disk.attempts + 1 < cell.disk.task.retryBudget
    ensures Plays(delay, Spot(cell, LoadForStep), answers, y) && y.body.Finished?
    ensures SendCount(y.cell.hist) == SendCount(cell.hist) + 1
    ensures y.cell.disk == cell.disk.(state := StateWaitingRetry, attempts := cell.disk.attempts + 1,
                                      nextRetryAt := Some(now + delay), lastErrorKind := RequestNotAccepted,
                                      lastObserved := now)
  {
    hide Plays, CellAfter;
    var looks, a := Looks(delay, cell, now);
    var sends, b := Sends(delay, a.cell, a.body.cp, now);
    var ends;
    ends, y := Ends(delay, b.cell, b.body, Failed(ErrRequestNotAccepted));
    PlayOn(delay, Spot(cell, LoadForStep), looks, a, sends, b);
    PlayOn(delay, Spot(cell, LoadForStep), looks + sends, b, ends, y);
    answers := looks + sends + ends;
  }

  /** A later Step sends again, and AO accepts. */
  lemma AcceptedStep(delay: int, cell: Cell, now: int, turn: string) returns (answers: seq<Answer>, y: Spot)
    requires delay > 0 && cell.disk.Valid() && cell.disk.state.StateWaitingRetry? && !cell.disk.NotYetDue(now)
    requires cell.disk.sideEffect.SideEffectPending? && cell.disk.attempts < cell.disk.task.retryBudget
    ensures Plays(delay, Spot(cell, LoadForStep), answers, y) && y.body.Finished?
    ensures SendCount(y.cell.hist) == SendCount(cell.hist) + 1
    ensures y.cell.disk == cell.disk.(state := StateDelivered, attempts := cell.disk.attempts + 1, aoTurnID := turn,
                                      nextRetryAt := None, lastErrorKind := NoError, lastObserved := now)
  {
    hide Plays, CellAfter;
    var looks, a := Looks(delay, cell, now);
    var sends, b := Sends(delay, a.cell, a.body.cp, now);
    var ends;
    ends, y := Ends(delay, b.cell, b.body, Receipt(DeliveryReceipt(DeliveryAccepted, turn)));
    PlayOn(delay, Spot(cell, LoadForStep), looks, a, sends, b);
    PlayOn(delay, Spot(cell, LoadForStep), looks + sends, b, ends, y);
    answers := looks + sends + ends;
  }

  /** A last Step finds the turn completed with a receipt for the task. */
  lemma CompletedStep(delay: int, cell: Cell, now: int) returns (answers: seq<Answer>, y: Spot)
    requires cell.disk.Valid() && cell.disk.state.StateDelivered? && !cell.disk.NotYetDue(now)
    requires cell.disk.sideEffect.SideEffectPending?
    ensures Plays(delay, Spot(cell, LoadForStep), answers, y) && y.body.Finished?
    ensures SendCount(y.cell.hist) == SendCount(cell.hist)
    ensures y.cell.disk == cell.disk.(state := StateCompleted, sideEffect := SideEffectCompleted, nextRetryAt := None,
                                      lastErrorKind := NoError, lastObserved := now)
  {
    hide Plays, CellAfter;
    var looks, a := Looks(delay, cell, now);
    var ends;
    ends, y := Ends(delay, a.cell, a.body, Finds(cell.disk.task));
    PlayOn(delay, Spot(cell, LoadForStep), looks, a, ends, y);
    answers := looks + ends;
  }

  /** From any initial world, a fresh task with two attempts left has a run in which AO refuses a
      first Send, accepts a second one behind the delay, and the task completes. Each of the three Steps
      gives the lease back to the next, without an operator. */
  lemma RefusedTaskCanComplete(w: World, p: nat, s: string, cfg: Config) returns (acts: seq<Action>, v: World)
    requires CanBegin(w, p, s, cfg) && w.cells[s].disk.attempts + 1 < w.cells[s].disk.task.retryBudget
    ensures Reaches(w, acts, v) && s in v.cells && SendCount(v.cells[s].hist) == 2 && Unaided(acts)
    ensures KeyOf(w.cells[s].disk.task).Name() !in v.leases
    ensures v.cells[s].disk.state.StateCompleted? && v.cells[s].disk.attempts == w.cells[s].disk.attempts + 2
  {
    hide Reaches, Plays;
    var cell, delay := w.cells[s], cfg.Delay();
    acts, v := Hired(w, p, s, cfg);
    var one, a := RefusedStep(delay, cell, 0);
    acts, v := WholeStep(w, acts, v, p, s, cfg, cell, one, a);
    var two, b := AcceptedStep(delay, a.cell, delay, "turn");
    acts, v := WholeStep(w, acts, v, p, s, cfg, a.cell, two, b);
    var three, c := CompletedStep(delay, b.cell, delay);
    acts, v := WholeStep(w, acts, v, p, s, cfg, b.cell, three, c);
  }

  /** Two tasks whose leases have different names can be worked on at once. */
  lemma TwoTasksAtOnce(w: World, p: nat, s: string, cfg: Config, q: nat, t: string, cfg': Config)
    returns (acts: seq<Action>, v: World)
    requires CanBegin(w, p, s, cfg) && CanBegin(w, q, t, cfg') && p != q && s != t
    requires KeyOf(w.cells[s].disk.task).Name() != KeyOf(w.cells[t].disk.task).Name()
    ensures Reaches(w, acts, v) && p in v.procs && q in v.procs
    ensures v.procs[p].phase.Running? && v.procs[p].store == s && v.procs[q].phase.Running? && v.procs[q].store == t
  {
    hide Reaches;
    acts, v := Hired(w, p, s, cfg);
    acts, v := Acquired(w, acts, v, p, s, cfg, w.cells[s]);
    acts := Extend(w, acts, v, Spawn(q, t, cfg'));
    v := Apply(v, Spawn(q, t, cfg'));
    acts, v := Acquired(w, acts, v, q, t, cfg', w.cells[t]);
  }
}
