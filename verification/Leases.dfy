/** Leases come back: a call that has returned has given up the lease file it created. */
module LeaseReturn {
  import opened CheckpointModel
  import opened DispatcherMachine
  import opened LocalSafety
  import opened DeliveryWorld

  /** The process asks for its own lease file, to undo or to release it. */
  predicate GivesUp(phase: Phase) {
    phase.AcquireUndo? || phase.ReleaseRead? || phase.ReleaseRemove?
  }

  /** None of the reads and removals by which `p` gives its lease back fails in the run. */
  predicate LeaseWorks(w: World, acts: seq<Action>, v: World, p: nat)
    requires Reaches(w, acts, v)
    decreases |acts|
  {
    acts != [] ==>
      && (acts[0].Reply? && acts[0].p == p && GivesUp(w.procs[p].phase) ==> !acts[0].ans.Failed?)
      && LeaseWorks(Apply(w, acts[0]), acts[1..], v, p)
  }

  /** The file was there in the beginning and nobody has touched it. */
  predicate LeftOver(start: World, w: World, name: string)
    requires name in w.leases
  {
    name in start.leases && start.leases[name] == w.leases[name]
  }

  /** Files that `p` created are left over from before, or the one it holds, or it has crashed. */
  predicate OwnFiles(start: World, w: World, p: nat) {
    forall name :: name in w.leases && w.leases[name].creator == p ==>
      || LeftOver(start, w, name)
      || (p in w.procs && Engaged(w.procs[p].phase) && HeldKey(w.procs[p].phase).Name() == name)
      || (p in w.procs && w.procs[p].phase.Crashed?)
  }

  /** What an answer to `p` does to the files it created. */
  lemma OwnReply(start: World, w: World, p: nat, ans: Answer)
    requires Inv(w) && OwnFiles(start, w, p) && Enabled(w, Reply(p, ans))
    requires GivesUp(w.procs[p].phase) ==> !ans.Failed?
    ensures OwnFiles(start, ApplyReply(w, p, ans), p)
  {
    hide StoreInv, BodyInv, BodyResume, CellAfter;
    assert ProcInv(w, p);
  }

  /** An answer to another process leaves them alone. */
  lemma OtherReply(start: World, w: World, q: nat, ans: Answer, p: nat)
    requires Inv(w) && OwnFiles(start, w, p) && Enabled(w, Reply(q, ans)) && p != q
    ensures OwnFiles(start, ApplyReply(w, q, ans), p)
  {
    hide StoreInv, BodyInv, BodyResume, CellAfter, PhaseResume;
    assert ProcInv(w, q);
    var v := ApplyReply(w, q, ans);
    forall name | name in v.leases && v.leases[name].creator == p
      ensures name in w.leases && w.leases[name] == v.leases[name]
    {
    }
  }

  lemma ActionKeepsFiles(start: World, w: World, a: Action, p: nat)
    requires Inv(w) && OwnFiles(start, w, p) && Enabled(w, a)
    requires a.Reply? && a.p == p && GivesUp(w.procs[p].phase) ==> !a.ans.Failed?
    ensures OwnFiles(start, Apply(w, a), p)
  {
    hide Inv, PhaseResume, CellAfter, Honest;
    if a.Reply? {
      if a.p == p {
        OwnReply(start, w, p, a.ans);
      } else {
        OtherReply(start, w, a.p, a.ans, p);
      }
    }
  }

  lemma {:induction false} RunKeepsFiles(start: World, w: World, acts: seq<Action>, v: World, p: nat)
    requires Inv(w) && OwnFiles(start, w, p) && Reaches(w, acts, v) && LeaseWorks(w, acts, v, p)
    ensures OwnFiles(start, v, p)
    decreases |acts|
  {
    hide Inv, OwnFiles, Apply, Enabled;
    if acts != [] {
      ActionKeepsInv(w, acts[0]);
      ActionKeepsFiles(start, w, acts[0], p);
      RunKeepsFiles(start, Apply(w, acts[0]), acts[1..], v, p);
    }
  }

  /** A process whose call has returned, and whose reads and removals of its lease never failed, has left
      no lease file behind: whatever file names it as creator was there before the run. */
  lemma LeaseComesBack(w: World, acts: seq<Action>, v: World, p: nat, name: string)
    requires Init(w) && Reaches(w, acts, v) && LeaseWorks(w, acts, v, p)
    requires p in v.procs && v.procs[p].phase.Returned?
    requires name in v.leases && v.leases[name].creator == p
    ensures name in w.leases && w.leases[name] == v.leases[name]
  {
    hide Inv;
    InitInv(w);
    RunKeepsFiles(w, w, acts, v, p);
  }

  /** Inside a call, and until its lease is given back, the lease file of the checkpoint names the process,
      its owner and its task. */
  lemma LeaseNamesItsHolder(w: World, acts: seq<Action>, v: World, p: nat)
    requires Init(w) && Reaches(w, acts, v) && p in v.procs
    requires v.procs[p].phase.Running? || v.procs[p].phase.ReleaseRead? || v.procs[p].phase.ReleaseRemove?
    ensures v.procs[p].store in v.cells
    ensures var task := v.cells[v.procs[p].store].disk.task;
            && KeyOf(task).Name() in v.leases
            && v.leases[KeyOf(task).Name()]
               == LeaseFile(Some(LeaseRecord(v.procs[p].cfg.ownerID, task.taskID, p)), p)
  {
    hide StoreInv, BodyInv;
    InitInv(w);
    RunsKeepInv(w, acts, v);
    assert ProcInv(v, p);
  }
}
