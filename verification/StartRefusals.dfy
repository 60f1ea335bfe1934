/** What a transaction is told when it ends without committing is what its command would be told alone,
    on the database as it is then. */
module StartRefusals {
  import opened CheckpointModel
  import opened EventProjection
  import opened StartCommand
  import opened StartSuccess
  import opened StartRaces
  import opened StartSerial
  import A = StartAnswers
  import PR = ProjectionRaces
  import G = StateGraph

  /** The command, alone, answers `reply` and changes nothing. */
  predicate Refuses(db: Database, c: Command, reply: Reply) {
    Execute(db, c) == Result(db, reply)
  }

  lemma LoadRefuses(db: Database, s: Session)
    requires !s.c.CmdStart? && s.at.Begun? && Next(db, s).at.Ended?
    ensures Refuses(db, s.c, Next(db, s).at.reply)
  {
    hide Complete, AcceptedApplied, FindAcceptance, Process;
    match s.c
    case CmdAccept(_) =>
    case CmdClaim(ev, expected, eventID, safe) => A.ClaimStopped(db, ev, expected, eventID, safe);
    case CmdConfirm(ev, expected, batchEventID, eventID, safe) =>
      A.ConfirmStopped(db, ev, expected, batchEventID, eventID, safe);
  }

  lemma LookupRefuses(db: Database, owned: set<Lock>, s: Session)
    requires SessionInv(db, owned, s) && s.at.Loaded? && Next(db, s).at.Ended?
    ensures Refuses(db, s.c, Next(db, s).at.reply)
  {
    ViewOfNothing(db, s.c);
    hide AcceptedApplied, View, Process, ClaimReplay, Complete;
    if s.c.CmdClaim? {
      A.ClaimStopped(db, s.c.ev, s.c.expected, s.c.eventID, s.c.safe);
    }
  }

  /** The first event of a command, or the second one behind the first, is unsafe or its key is taken. */
  lemma NothingToEnqueue(db: Database, owned: set<Lock>, s: Session)
    requires s.at.ToPublish? && Publishing(db, owned, s, |s.work.outbox|, |s.work.outbox|) && Next(db, s).at.Ended?
    ensures var n := |s.work.outbox|;
            && n < |Events(db, s.c)|
            && var r := Events(db, s.c)[n];
               if !r.event.safe then Next(db, s).at.reply == Unsafe
               else Next(db, s).at.reply == KeyTaken
                    && (EventIDTaken(db, r.event.id) || (n == 1 && Events(db, s.c)[0].event.id == r.event.id))
    ensures s.c.safe ==> forall k :: 0 <= k < |Events(db, s.c)| ==> Events(db, s.c)[k].event.safe
    ensures !s.c.safe ==> forall k :: 0 <= k < |Events(db, s.c)| ==> !Events(db, s.c)[k].event.safe
  {
    hide Ready, HoldsRows, QueuedInOrder, FencesHeld;
    var v := View(db, s.c, s.work);
    assert Events(v, s.c) == Events(db, s.c);
    var n := |s.work.outbox|;
    if EventIDTaken(v, Events(db, s.c)[n].event.id) {
      var q :| q in v.outbox && q.event.id == Events(db, s.c)[n].event.id;
      if q !in db.outbox {
        assert q in s.work.outbox;
        var k :| 0 <= k < |s.work.outbox| && s.work.outbox[k] == q;
      }
    }
  }

  lemma ClaimRefused(db: Database, owned: set<Lock>, s: Session, m: Move)
    requires s.c.CmdClaim? && s.at.ToPublish? && Publishing(db, owned, s, |s.work.outbox|, |s.work.outbox|)
    requires Agreement(db) && m == Next(db, s) && m.at.Ended?
    ensures Refuses(db, s.c, m.at.reply)
  {
    NothingToEnqueue(db, owned, s);
    PassesNow(db, owned, s.c);
    hide Agreement, Next, Execute, Ready, HoldsRows, WorkOf, QueuedInOrder, FencesHeld, EventIDTaken, Evident,
        A.PassesClaim;
    A.ClaimPasses(db, s.c.ev, s.c.expected, s.c.eventID, s.c.safe);
    ClaimIs(db, s.c);
  }

  /** What stops the events of a confirmation. */
  lemma ConfirmationStops(db: Database, owned: set<Lock>, s: Session, m: Move)
    requires s.c.CmdConfirm? && s.at.ToPublish? && Publishing(db, owned, s, |s.work.outbox|, |s.work.outbox|)
    requires m == Next(db, s) && m.at.Ended?
    ensures m.at.reply == if s.c.safe then KeyTaken else Unsafe
    ensures s.c.safe ==> A.KeysTaken(db, s.c.batchEventID, s.c.eventID)
  {
    NothingToEnqueue(db, owned, s);
    hide Next, Ready, HoldsRows, WorkOf, QueuedInOrder, FencesHeld, EventIDTaken;
  }

  lemma ConfirmationRefused(db: Database, owned: set<Lock>, s: Session, m: Move)
    requires s.c.CmdConfirm? && s.at.ToPublish? && Publishing(db, owned, s, |s.work.outbox|, |s.work.outbox|)
    requires Agreement(db) && m == Next(db, s) && m.at.Ended?
    ensures Refuses(db, s.c, m.at.reply)
  {
    ConfirmationStops(db, owned, s, m);
    hide Agreement, Next, Execute, Ready, HoldsRows, WorkOf, QueuedInOrder, FencesHeld, A.KeysTaken, Confirmable,
        Evident, A.PassesConfirm, Events;
    PassesNow(db, owned, s.c);
    hide Publishing;
    A.ConfirmPasses(db, s.c.ev, s.c.expected, s.c.batchEventID, s.c.eventID, s.c.safe);
    ConfirmIs(db, s.c);
  }

  lemma EnqueueRefuses(db: Database, owned: set<Lock>, s: Session, m: Move)
    requires s.at.ToPublish? && Publishing(db, owned, s, |s.work.outbox|, |s.work.outbox|)
    requires Agreement(db) && m == Next(db, s) && m.at.Ended?
    ensures Refuses(db, s.c, m.at.reply)
  {
    hide Agreement, Next, Refuses, HoldsRows, Ready, QueuedInOrder, FencesHeld;
    if s.c.CmdClaim? {
      ClaimRefused(db, owned, s, m);
    } else {
      ConfirmationRefused(db, owned, s, m);
    }
  }

  lemma ClaimIs(db: Database, c: Command)
    requires c.CmdClaim?
    ensures Execute(db, c) == ClaimStart(db, c.ev, c.expected, c.eventID, c.safe)
  {
  }

  lemma ConfirmIs(db: Database, c: Command)
    requires c.CmdConfirm?
    ensures Execute(db, c) == ConfirmRunning(db, c.ev, c.expected, c.batchEventID, c.eventID, c.safe)
  {
  }

  /** Locked rows that are ready are rows that the guards let through. */
  lemma PassesNow(db: Database, owned: set<Lock>, c: Command)
    requires Agreement(db) && (c.CmdClaim? || c.CmdConfirm?) && HoldsRows(db, owned, c.ev) && Ready(db, c)
    ensures Evident(db, c.ev)
    ensures c.CmdClaim? ==> A.PassesClaim(db, c.ev, c.expected)
    ensures c.CmdConfirm? ==> A.PassesConfirm(db, c.ev, c.expected) && Confirmable(db, c.ev) && c.expected == 1
  {
    OperationFacts(db, c.ev.operationID);
    hide OutboxInv, RowsInv, NoneConfirming, OperationsInv, OperationInv, AcceptedApplied, CurrentRevision, Complete;
    if c.CmdConfirm? {
      StageOfConfirm(db, c.ev);
    }
  }

  lemma UpdateEnds(v: Database, s: Session)
    requires !s.c.CmdStart? && !s.c.CmdAccept? && (s.at.Cleared? || s.at.Activated?)
    ensures s.at.Cleared? && Update(v, s).at.Ended? ==> Update(v, s).at.reply.CasFailed?
    ensures forall x :: Updated(s, x).at.Ended? ==> Updated(s, x).at.reply.CasFailed?
  {
    hide ActivateBatch, ConfirmRow, ClaimRow;
  }

  lemma NoEndAtUpdate(db: Database, owned: set<Lock>, s: Session)
    requires SessionInv(db, owned, s) && (s.at.Cleared? || s.at.Activated?)
    ensures !s.c.CmdStart? && !Next(db, s).at.Ended?
  {
    UpdateLeadsOn(db, owned, s);
    hide HoldsRows, Ready, Update, Updated, View, ConfirmRow;
    UpdateEnds(View(db, s.c, s.work), s);
  }

  lemma NoEndInProcessor(db: Database, owned: set<Lock>, s: Session)
    requires Agreement(db) && SessionInv(db, owned, s) && s.at.Processing?
    ensures !s.c.CmdStart? && !Next(db, s).at.Ended?
  {
    NextLeadsOn(db, owned, s);
    SafeInside(db, owned, s);
    hide Agreement, SessionInv, ProcessNext, View;
    GateEnds(View(db, s.c, s.work), s, s.at.d, s.at.gate);
  }

  /** Inside the processor and at the compare-and-sets no transaction ends. */
  lemma NoEndInside(db: Database, owned: set<Lock>, s: Session)
    requires Agreement(db) && SessionInv(db, owned, s) && (s.at.Processing? || s.at.Cleared? || s.at.Activated?)
    ensures !s.c.CmdStart? && !Next(db, s).at.Ended?
  {
    hide Agreement, SessionInv, Next;
    if s.at.Processing? {
      NoEndInProcessor(db, owned, s);
    } else {
      NoEndAtUpdate(db, owned, s);
    }
  }

  lemma SafeInside(db: Database, owned: set<Lock>, s: Session)
    requires Agreement(db) && SessionInv(db, owned, s) && s.at.Processing?
    ensures s.at.d.event.safe && !s.c.CmdStart?
  {
    InsideIsSession(db, owned, s);
    hide SessionInv, GateInv, HoldsRows, Ready, EventIDTaken, FencesHeld, WorkOf;
    if s.c.CmdAccept? {
      AcceptanceIsStart(db, owned, s, s.at.d);
    } else {
      var n := |s.work.outbox|;
      assert Events(db, s.c)[..n][n - 1] == Events(db, s.c)[n - 1];
    }
  }

  lemma GateEnds(v: Database, s: Session, d: Delivery, gate: Gate)
    requires !s.c.CmdStart? && d.event.safe
    ensures ProcessNext(v, s, d, gate).at.Ended? ==> ProcessNext(v, s, d, gate).at.reply.NotApplied?
  {
    hide HasRow, CurrentRevision, PR.KeyOfDelivery;
  }

  /** Whatever a statement ends its transaction with, the command alone is told the same. */
  lemma EndIsSerial(db: Database, owned: set<Lock>, s: Session)
    requires Agreement(db) && SessionInv(db, owned, s) && Busy(s) && !s.c.CmdStart? && Next(db, s).at.Ended?
    ensures Refuses(db, s.c, Next(db, s).at.reply)
  {
    hide Agreement, Next, Refuses;
    match s.at
    case Begun => LoadRefuses(db, s);
    case Loaded(_, _) => LookupRefuses(db, owned, s);
    case ToPublish => EnqueueRefuses(db, owned, s, Next(db, s));
    case _ => NoEndInside(db, owned, s);
  }

  /** In every run a transaction that ends without committing leaves the database alone and is told what
      its command is told alone at that moment. */
  lemma RefusalsAreSerial(workspace: string, acts: seq<Action>, v: World, i: nat)
    requires Reaches(Empty(workspace), acts, v) && Enabled(v, Run(i)) && Next(v.db, v.sessions[i]).at.Ended?
    ensures var next := Apply(v, Run(i));
            && next.db == v.db && next.sessions[i].at.Ended?
            && Execute(v.db, v.sessions[i].c) == Result(v.db, next.sessions[i].at.reply)
  {
    hide SessionInv, ExecuteAll, Execute, Agreement, Next;
    assert Empty(workspace).db == ExecuteAll(EmptyDatabase(workspace), []) by { NothingDone(workspace); }
    RunsKeepInv(Empty(workspace), workspace, acts, v);
    DoneAgrees(v, workspace);
    EndIsSerial(v.db, OwnedBy(v, i), v.sessions[i]);
  }
}
