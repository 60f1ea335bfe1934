/** Any number of processes working on any number of checkpoints of one workspace, with lease
    files between them (internal/recovery/lease.go). A process can crash at every I/O boundary,
    before its request has left or behind it; an operator can clear a lease whose recorded process
    is no longer inside a call. */
module DeliveryWorld {
  import opened CheckpointModel
  import opened DispatcherMachine
  import opened DeliveryHistory
  import opened LocalSafety

  /** `content` is None between the O_EXCL create and the write; `creator` is the process that
      created the file. */
  datatype LeaseFile = LeaseFile(content: Option<LeaseRecord>, creator: nat)

  datatype Process = Process(store: string, cfg: Config, phase: Phase)
  {
    function Request(): Request { PhaseRequest(cfg, phase) }
  }

  datatype World = World(cells: map<string, Cell>, leases: map<string, LeaseFile>, procs: map<nat, Process>)

  datatype Action =
    | Spawn(p: nat, store: string, cfg: Config)
    | Begin(p: nat, call: Call)
    | Reply(p: nat, ans: Answer)
    | Crash(p: nat, left: bool)
    | ClearLease(name: string)

  /** The process created a lease file and has not given it up. */
  predicate Engaged(phase: Phase) {
    || phase.AcquireWrite? || phase.AcquireUndo? || phase.ReleaseRead? || phase.ReleaseRemove?
    || (phase.Running? && phase.lease.Some?)
  }

  function HeldKey(phase: Phase): LeaseKey
    requires Engaged(phase)
  {
    if phase.Running? then phase.lease.value else phase.key
  }

  /** The environment's side of an answer. */
  predicate Possible(w: World, q: Process, ans: Answer)
    requires q.store in w.cells
  {
    var req := q.Request();
    && Honest(w.cells[q.store].disk, req, ans)
    && (req.ReqCreateLease? ==> (ans.Ack? ==> req.name !in w.leases) && (ans.LeaseExists? ==> req.name in w.leases))
    && (ans.LeaseContent? ==> req.name in w.leases && ans.content == w.leases[req.name].content)
  }

  function LeasesAfter(leases: map<string, LeaseFile>, p: nat, req: Request, ans: Answer): map<string, LeaseFile> {
    if !ans.Ack? then leases
    else match req
      case ReqCreateLease(name) => leases[name := LeaseFile(None, p)]
      case ReqWriteLease(name, record) =>
        if name in leases then leases[name := leases[name].(content := Some(record))] else leases
      case ReqRemoveLease(name) => leases - {name}
      case _ => leases
  }

  predicate Enabled(w: World, a: Action) {
    match a
    case Spawn(p, store, cfg) => p !in w.procs && store in w.cells && cfg.leased && cfg.pid == p
    case Begin(p, _) => p in w.procs && w.procs[p].phase.Returned?
    case Reply(p, ans) => p in w.procs && w.procs[p].store in w.cells && Possible(w, w.procs[p], ans)
    case Crash(p, left) =>
      && p in w.procs
      && (left ==> w.procs[p].phase.Running? && IsCall(w.procs[p].Request()) && w.procs[p].store in w.cells)
    case ClearLease(name) =>
      && name in w.leases
      && (w.leases[name].creator in w.procs ==> !Engaged(w.procs[w.leases[name].creator].phase))
  }

  function Apply(w: World, a: Action): World
    requires Enabled(w, a)
  {
    match a
    case Spawn(p, store, cfg) =>
      w.(procs := w.procs[p := Process(store, cfg, Returned(Outcome(None, None)))])
    case Begin(p, call) =>
      w.(procs := w.procs[p := w.procs[p].(phase := Invoke(w.procs[p].cfg, call))])
    case Reply(p, ans) => ApplyReply(w, p, ans)
    case Crash(p, left) => ApplyCrash(w, p, left)
    case ClearLease(name) =>
      w.(leases := w.leases - {name})
  }

  function ApplyReply(w: World, p: nat, ans: Answer): World
    requires Enabled(w, Reply(p, ans))
  {
    var q := w.procs[p];
    World(
      if q.phase.Running? then w.cells[q.store := CellAfter(q.cfg.Delay(), w.cells[q.store], q.phase.body, ans)]
      else w.cells,
      LeasesAfter(w.leases, p, q.Request(), ans),
      w.procs[p := q.(phase := PhaseResume(q.cfg, q.phase, ans))])
  }

  /** A request that has left stays in the history of its checkpoint. */
  function ApplyCrash(w: World, p: nat, left: bool): World
    requires Enabled(w, Crash(p, left))
  {
    var q := w.procs[p];
    var cells :=
      if left then w.cells[q.store := w.cells[q.store].(hist := Asked(w.cells[q.store].hist, q.phase.body))]
      else w.cells;
    w.(cells := cells, procs := w.procs[p := q.(phase := Crashed)])
  }

  /** Fresh checkpoints, no process yet; lease files may be left over from before. */
  predicate Init(w: World) {
    && w.procs == map[]
    && forall s | s in w.cells :: Fresh(w.cells[s].disk) && w.cells[s].hist == Genesis(w.cells[s].disk)
  }

  /** `acts` leads from `w` to `v`. */
  predicate Reaches(w: World, acts: seq<Action>, v: World)
    decreases |acts|
  {
    if acts == [] then w == v
    else Enabled(w, acts[0]) && Reaches(Apply(w, acts[0]), acts[1..], v)
  }

  // ----- invariants -----

  predicate ProcInv(w: World, p: nat)
    requires p in w.procs
  {
    var q := w.procs[p];
    && q.store in w.cells && q.cfg.leased && q.cfg.pid == p
    && (q.phase.AcquireCreate? ==> q.phase.key == KeyOf(w.cells[q.store].disk.task))
    && (q.phase.Running? ==>
          q.phase.lease.Some? && BodyInv(q.cfg.Delay(), w.cells[q.store], q.phase.body))
    && (Engaged(q.phase) ==> HoldsLease(w, p, q))
  }

  /** The lease file of the process's checkpoint exists and is the process's own. */
  predicate HoldsLease(w: World, p: nat, q: Process)
    requires q.store in w.cells && Engaged(q.phase)
  {
    var key := HeldKey(q.phase);
    && key == KeyOf(w.cells[q.store].disk.task)
    && key.Name() in w.leases
    && w.leases[key.Name()].creator == p
    && (!q.phase.AcquireWrite? && !q.phase.AcquireUndo? ==>
          w.leases[key.Name()].content == Some(q.cfg.Record(key)))
  }

  predicate Inv(w: World) {
    && (forall s | s in w.cells :: StoreInv(w.cells[s]))
    && (forall p | p in w.procs :: ProcInv(w, p))
  }

  lemma InitInv(w: World)
    requires Init(w)
    ensures Inv(w)
  {
  }

  /** Two processes that hold leases of the same name are the same process. */
  lemma LeaseNamesOneHolder(w: World, p: nat, q: nat)
    requires Inv(w) && p in w.procs && q in w.procs
    requires Engaged(w.procs[p].phase) && Engaged(w.procs[q].phase)
    requires HeldKey(w.procs[p].phase).Name() == HeldKey(w.procs[q].phase).Name()
    ensures p == q
  {
    assert ProcInv(w, p) && ProcInv(w, q);
  }

  lemma InitialKept(delay: int, hist: History, body: Body, ans: Answer)
    ensures Initial(HistAfter(delay, hist, body, ans)) == Initial(hist)
  {
    var called := Then(hist, Called(CallerOf(body), TimeOf(body), BodyRequest(body)));
    assert Initial(called) == Initial(hist);
  }

  /** What an answer to a running body does to its checkpoint. */
  lemma ReplyToBody(delay: int, cell: Cell, body: Body, ans: Answer)
    requires Consistent(delay, cell, body) && Honest(cell.disk, BodyRequest(body), ans)
    ensures var after := CellAfter(delay, cell, body, ans);
            && StoreInv(after)
            && after.disk.task == cell.disk.task
            && BodyInv(delay, after, BodyResume(delay, body, ans))
  {
    BodyStep(delay, cell, body, ans);
    InitialKept(delay, cell.hist, body, ans);
  }

  lemma StartInOrder(delay: int, cell: Cell, call: Call)
    ensures BodyInv(delay, cell, Start(call))
  {
  }

  /** What an answer to `p` does to `p` itself. */
  lemma ReplyToSelf(w: World, p: nat, ans: Answer)
    requires Inv(w) && Enabled(w, Reply(p, ans))
    ensures var v := ApplyReply(w, p, ans);
            && StoreInv(v.cells[w.procs[p].store])
            && v.cells[w.procs[p].store].disk.task == w.cells[w.procs[p].store].disk.task
            && ProcInv(v, p)
  {
    hide StoreInv, BodyInv, BodyResume, CellAfter;
    var q := w.procs[p];
    var cell := w.cells[q.store];
    assert ProcInv(w, p);
    if q.phase.Running? {
      ReplyToBody(q.cfg.Delay(), cell, q.phase.body, ans);
    } else if q.phase.AcquireWrite? {
      StartInOrder(q.cfg.Delay(), cell, q.phase.call);
    }
  }

  /** An answer to `p` leaves every other process alone: it is not inside the same checkpoint. */
  lemma ReplyToOther(w: World, p: nat, ans: Answer, r: nat)
    requires Inv(w) && Enabled(w, Reply(p, ans)) && r in w.procs && r != p
    ensures ProcInv(ApplyReply(w, p, ans), r)
  {
    hide StoreInv, BodyInv, BodyResume, CellAfter;
    assert ProcInv(w, p) && ProcInv(w, r);
    ReplyToSelf(w, p, ans);
    var q, o := w.procs[p], w.procs[r];
    if Engaged(o.phase) && Engaged(q.phase) && HeldKey(o.phase).Name() == HeldKey(q.phase).Name() {
      LeaseNamesOneHolder(w, p, r);
    }
  }

  lemma ReplyKeepsInv(w: World, p: nat, ans: Answer)
    requires Inv(w) && Enabled(w, Reply(p, ans))
    ensures Inv(ApplyReply(w, p, ans))
  {
    hide StoreInv, BodyInv, BodyResume, CellAfter;
    ReplyToSelf(w, p, ans);
    var v := ApplyReply(w, p, ans);
    forall r | r in v.procs
      ensures ProcInv(v, r)
    {
      if r != p {
        ReplyToOther(w, p, ans, r);
      }
    }
  }

  lemma CrashKeepsInv(w: World, p: nat, left: bool)
    requires Inv(w) && Enabled(w, Crash(p, left))
    ensures Inv(ApplyCrash(w, p, left))
  {
    hide StoreInv, BodyInv;
    var q, v := w.procs[p], ApplyCrash(w, p, left);
    assert ProcInv(w, p);
    if left {
      PendingCall(q.cfg.Delay(), w.cells[q.store], q.phase.body);
    }
    forall r | r in v.procs
      ensures ProcInv(v, r)
    {
      assert ProcInv(w, r);
      if r != p && left && Engaged(w.procs[r].phase) && w.procs[r].store == q.store {
        LeaseNamesOneHolder(w, p, r);
      }
    }
  }

  lemma ActionKeepsInv(w: World, a: Action)
    requires Inv(w) && Enabled(w, a)
    ensures Inv(Apply(w, a))
  {
    hide StoreInv, BodyInv, BodyResume, CellAfter;
    var v := Apply(w, a);
    if a.Reply? {
      ReplyKeepsInv(w, a.p, a.ans);
    } else if a.Crash? {
      CrashKeepsInv(w, a.p, a.left);
    } else {
      forall r | r in v.procs
        ensures ProcInv(v, r)
      {
        if r in w.procs {
          assert ProcInv(w, r);
        }
      }
    }
  }

  /** Every reachable world satisfies the invariants. */
  lemma {:induction false} RunsKeepInv(w: World, acts: seq<Action>, v: World)
    requires Inv(w) && Reaches(w, acts, v)
    ensures Inv(v)
    decreases |acts|
  {
    if acts != [] {
      ActionKeepsInv(w, acts[0]);
      RunsKeepInv(Apply(w, acts[0]), acts[1..], v);
    }
  }
}
