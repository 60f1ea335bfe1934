/** Whose delay a deadline is. */
module DeliveryDeadlines {
  import opened CheckpointModel
  import opened DispatcherMachine
  import opened DeliveryHistory
  import opened LocalSafety
  import opened DeliveryWorld
  import opened DeliveryGuarantees

  /** How long a dispatcher with these settings waits: the configured time if it is positive, a minute
      otherwise. */
  function Configured(retryDelay: int): int {
    if retryDelay > 0 then retryDelay else 60_000_000_000
  }

  /** Some process on the checkpoint has the delay of the write. */
  ghost predicate HasWriter(w: World, s: string, delay: int) {
    exists p :: p in w.procs && w.procs[p].store == s && w.procs[p].cfg.Delay() == delay
  }

  ghost predicate Written(w: World, s: string, h: History) {
    h.Then? ==> Written(w, s, h.past) && (h.last.Persisted? ==> HasWriter(w, s, h.last.delay))
  }

  predicate ProcsStay(w: World, v: World) {
    forall p :: p in w.procs ==>
      p in v.procs && v.procs[p].store == w.procs[p].store && v.procs[p].cfg == w.procs[p].cfg
  }

  lemma ActionKeepsProcs(w: World, a: Action)
    requires Enabled(w, a)
    ensures ProcsStay(w, Apply(w, a))
  {
    hide PhaseResume, CellAfter;
  }

  lemma {:induction false} WrittenStays(w: World, v: World, s: string, h: History)
    requires ProcsStay(w, v) && Written(w, s, h)
    ensures Written(v, s, h)
  {
    if h.Then? {
      WrittenStays(w, v, s, h.past);
      if h.last.Persisted? {
        var p :| p in w.procs && w.procs[p].store == s && w.procs[p].cfg.Delay() == h.last.delay;
        assert p in v.procs;
      }
    }
  }

  lemma AnswerWritten(w: World, s: string, p: nat, ans: Answer)
    requires p in w.procs && w.procs[p].store == s && w.procs[p].phase.Running? && s in w.cells
    requires Written(w, s, w.cells[s].hist)
    ensures Written(w, s, HistAfter(w.procs[p].cfg.Delay(), w.cells[s].hist, w.procs[p].phase.body, ans))
  {
    assert HasWriter(w, s, w.procs[p].cfg.Delay());
    var hist, body := w.cells[s].hist, w.procs[p].phase.body;
    assert Written(w, s, Asked(hist, body));
    hide HasWriter;
  }

  lemma ActionWritten(w: World, a: Action, s: string)
    requires Enabled(w, a) && s in w.cells && Written(w, s, w.cells[s].hist)
    ensures s in Apply(w, a).cells && Written(Apply(w, a), s, Apply(w, a).cells[s].hist)
  {
    hide Written, HistAfter, PhaseResume;
    var v := Apply(w, a);
    ActionKeepsProcs(w, a);
    WrittenStays(w, v, s, w.cells[s].hist);
    if a.Reply? && w.procs[a.p].phase.Running? && w.procs[a.p].store == s {
      AnswerWritten(w, s, a.p, a.ans);
      WrittenStays(w, v, s, HistAfter(w.procs[a.p].cfg.Delay(), w.cells[s].hist, w.procs[a.p].phase.body, a.ans));
    }
    if a.Crash? && a.left && w.procs[a.p].store == s {
      AskedWritten(v, s, w.cells[s].hist, w.procs[a.p].phase.body);
    }
  }

  lemma AskedWritten(w: World, s: string, hist: History, body: Body)
    requires Written(w, s, hist)
    ensures Written(w, s, Asked(hist, body))
  {
  }

  lemma {:induction false} RunWritten(w: World, acts: seq<Action>, v: World, s: string)
    requires Reaches(w, acts, v) && s in w.cells && Written(w, s, w.cells[s].hist)
    ensures s in v.cells && Written(v, s, v.cells[s].hist)
    decreases |acts|
  {
    hide Written, Apply, Enabled;
    if acts != [] {
      ActionWritten(w, acts[0], s);
      RunWritten(Apply(w, acts[0]), acts[1..], v, s);
    }
  }

  lemma {:induction false} WrittenPrefix(w: World, s: string, h: History, g: History)
    requires Prefix(h, g) && Written(w, s, g)
    ensures Written(w, s, h)
  {
    if h != g {
      WrittenPrefix(w, s, h, g.past);
    }
  }

  /** Every deadline that ever reached a file was set by a process on that checkpoint: it lies behind the
      clock reading of its observation by the process's own retry delay if that is positive, by a minute
      otherwise. */
  lemma DeadlinesAreConfigured(w: World, acts: seq<Action>, v: World, s: string, past: History, e: Event)
    requires Init(w) && Reaches(w, acts, v) && s in v.cells && s in w.cells
    requires Prefix(Then(past, e), v.cells[s].hist) && e.Persisted? && e.cp.nextRetryAt.Some?
    ensures exists p :: p in v.procs && v.procs[p].store == s
              && e.cp.nextRetryAt.value == e.cp.lastObserved + Configured(v.procs[p].cfg.retryDelay)
  {
    hide Lawful, Reaches, Init;
    Backoff(w, acts, v, s, past, e);
    InitWritten(w, s);
    RunWritten(w, acts, v, s);
    WrittenPrefix(v, s, Then(past, e), v.cells[s].hist);
    var p :| p in v.procs && v.procs[p].store == s && v.procs[p].cfg.Delay() == e.delay;
    assert v.procs[p].cfg.Delay() == Configured(v.procs[p].cfg.retryDelay);
  }

  lemma InitWritten(w: World, s: string)
    requires Init(w) && s in w.cells
    ensures Written(w, s, w.cells[s].hist)
  {
  }
}
