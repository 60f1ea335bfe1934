/** Many transactions process deliveries at once. Each reads committed rows statement by statement,
    takes the advisory lock of its consumer and aggregate, and shows its own rows only when it
    commits. Every run commits exactly what the serial processor would have done, one delivery
    after the other in the order of the commits. */
module ProjectionRaces {
  import opened CheckpointModel
  import opened EventProjection

  /** The text an advisory lock is taken on, before hashing. */
  type LockKey = string

  /** Four parts with colons between them; parts that hold colons themselves can make the same text. */
  function KeyOfDelivery(d: Delivery): LockKey {
    d.consumer + ":" + d.event.workspace + ":" + d.event.aggregateType + ":" + d.event.aggregateID
  }

  /** Where a transaction stands; `Decided` holds the revision it read and has yet to commit. */
  datatype Point =
    | Unchecked
    | Isolating(reason: Reason)
    | Waiting
    | Locked
    | Rechecked
    | Duplicate(locked: bool)
    | Decided(current: Option<int>)
    | Ended(verdict: Verdict)

  datatype Session = Session(d: Delivery, at: Point)

  /** `done` lists the deliveries whose transactions have committed, in that order. */
  datatype World = World(tables: Tables, locks: map<LockKey, nat>, sessions: map<nat, Session>, done: seq<Delivery>)

  datatype Action =
    | Open(i: nat, d: Delivery)
    | Check(i: nat)
    | TakeLock(i: nat)
    | Recheck(i: nat)
    | ReadRevision(i: nat)
    | Commit(i: nat)
    | Abort(i: nat)

  /** The deliveries that may come. */
  type Family = Delivery -> bool

  /** Both deliveries get as far as the lock, and what one of them writes the other one reads: rows of
      the same consumer under the same event or the same aggregate. */
  predicate Contend(d: Delivery, e: Delivery) {
    && d.event.schemaVersion == 1 && !Stale(d)
    && e.event.schemaVersion == 1 && !Stale(e)
    && d.consumer == e.consumer
    && (d.event.id == e.event.id || d.event.aggregateID == e.event.aggregateID)
  }

  /** Deliveries that contend take the same lock. The lock names workspace and aggregate type, the
      queries do not, so this is not true of every family. */
  ghost predicate Keyed(f: Family) {
    forall d, e :: f(d) && f(e) && Contend(d, e) ==> KeyOfDelivery(d) == KeyOfDelivery(e)
  }

  predicate HoldsLock(at: Point) {
    at.Locked? || at.Rechecked? || at.Decided? || (at.Duplicate? && at.locked)
  }

  predicate Enabled(f: Family, w: World, a: Action) {
    if a.Open? then a.i !in w.sessions && f(a.d)
    else
      a.i in w.sessions &&
      var s := w.sessions[a.i];
      match a
      case Check(_) => s.at.Unchecked?
      case TakeLock(_) => s.at.Waiting? && KeyOfDelivery(s.d) !in w.locks
      case Recheck(_) => s.at.Locked?
      case ReadRevision(_) => s.at.Rechecked?
      case Commit(_) =>
        || s.at.Isolating? || s.at.Duplicate?
        || (s.at.Decided? && !Decide(w.tables, s.d, s.at.current).verdict.Raised?)
      case _ => !s.at.Ended?
  }

  function At(w: World, i: nat, at: Point): World
    requires i in w.sessions
  {
    w.(sessions := w.sessions[i := w.sessions[i].(at := at)])
  }

  /** The transaction ends; its advisory lock goes with it. */
  function Leave(w: World, i: nat, tables: Tables, verdict: Verdict): World
    requires i in w.sessions
  {
    var s := w.sessions[i];
    At(w.(tables := tables,
          locks := if HoldsLock(s.at) then w.locks - {KeyOfDelivery(s.d)} else w.locks), i, Ended(verdict))
  }

  /** What a commit makes visible. */
  function Committed(t: Tables, s: Session): Processed
    requires s.at.Isolating? || s.at.Duplicate? || s.at.Decided?
  {
    match s.at
    case Isolating(reason) => Processed(WithQuarantine(t, s.d, reason), Quarantined)
    case Duplicate(_) => Processed(t, Deduplicated)
    case Decided(current) => Decide(t, s.d, current)
  }

  function Apply(f: Family, w: World, a: Action): World
    requires Enabled(f, w, a)
  {
    match a
    case Open(i, d) => w.(sessions := w.sessions[i := Session(d, Unchecked)])
    case Check(i) =>
      var d := w.sessions[i].d;
      At(w, i,
         if d.event.schemaVersion != 1 then Isolating(UnsupportedSchema)
         else if Stale(d) then Isolating(StaleRecoveryEpoch)
         else if HasRow(w.tables.checkpoints, d.consumer, d.event.id) then Duplicate(false)
         else Waiting)
    case TakeLock(i) =>
      At(w.(locks := w.locks[KeyOfDelivery(w.sessions[i].d) := i]), i, Locked)
    case Recheck(i) =>
      var d := w.sessions[i].d;
      if HasRow(w.tables.checkpoints, d.consumer, d.event.id) then
        At(w, i, Duplicate(true))
      else At(w, i, Rechecked)
    case ReadRevision(i) =>
      var d := w.sessions[i].d;
      At(w, i, Decided(CurrentRevision(w.tables.checkpoints, d.consumer, d.event.aggregateID)))
    case Commit(i) =>
      var out := Committed(w.tables, w.sessions[i]);
      Leave(w, i, out.tables, out.verdict).(done := w.done + [w.sessions[i].d])
    case Abort(i) => Leave(w, i, w.tables, Raised)
  }

  predicate Reaches(f: Family, w: World, acts: seq<Action>, v: World)
    decreases |acts|
  {
    if acts == [] then w == v
    else Enabled(f, w, acts[0]) && Reaches(f, Apply(f, w, acts[0]), acts[1..], v)
  }

  const START := World(EMPTY, map[], map[], [])

  // ----- invariants -----

  predicate SessionInv(f: Family, w: World, i: nat)
    requires i in w.sessions
  {
    var s := w.sessions[i];
    && f(s.d)
    && (HoldsLock(s.at) ==> KeyOfDelivery(s.d) in w.locks && w.locks[KeyOfDelivery(s.d)] == i)
    && (s.at.Isolating? ==>
          if s.at.reason.UnsupportedSchema? then s.d.event.schemaVersion != 1
          else s.d.event.schemaVersion == 1 && Stale(s.d))
    && (!s.at.Unchecked? && !s.at.Isolating? && !s.at.Ended? ==> s.d.event.schemaVersion == 1 && !Stale(s.d))
    && (s.at.Duplicate? ==> HasRow(w.tables.checkpoints, s.d.consumer, s.d.event.id))
    && (s.at.Rechecked? || s.at.Decided? ==> !HasRow(w.tables.checkpoints, s.d.consumer, s.d.event.id))
    && (s.at.Decided? ==> s.at.current == CurrentRevision(w.tables.checkpoints, s.d.consumer, s.d.event.aggregateID))
  }

  predicate Inv(f: Family, w: World) {
    && w.tables == ProcessAll(EMPTY, w.done)
    && forall i | i in w.sessions :: SessionInv(f, w, i)
  }

  /** A commit does to the tables what the serial processor does, with the same verdict. */
  lemma CommitIsSerial(f: Family, w: World, i: nat)
    requires Inv(f, w) && Enabled(f, w, Commit(i))
    ensures Committed(w.tables, w.sessions[i]) == Process(w.tables, w.sessions[i].d)
  {
    assert SessionInv(f, w, i);
  }

  /** A row added for another consumer or aggregate changes neither query of a session. */
  lemma OtherRow(t: Tables, t': Tables, d: Delivery, row: Row)
    requires t'.checkpoints == t.checkpoints + [row]
    requires !(row.consumer == d.consumer && row.event.id == d.event.id)
    requires !(row.consumer == d.consumer && row.event.aggregateID == d.event.aggregateID)
    ensures HasRow(t'.checkpoints, d.consumer, d.event.id) == HasRow(t.checkpoints, d.consumer, d.event.id)
    ensures CurrentRevision(t'.checkpoints, d.consumer, d.event.aggregateID)
            == CurrentRevision(t.checkpoints, d.consumer, d.event.aggregateID)
  {
    var rows := t'.checkpoints;
    assert rows[..|rows| - 1] == t.checkpoints;
    if HasRow(t.checkpoints, d.consumer, d.event.id) {
      var k :| 0 <= k < |t.checkpoints| && t.checkpoints[k].consumer == d.consumer
          && t.checkpoints[k].event.id == d.event.id;
      assert rows[k] == t.checkpoints[k];
    }
  }

  /** Processing a delivery adds at most one row, and this row is its own. */
  lemma ProcessAddsOwnRow(t: Tables, d: Delivery)
    ensures var t' := Process(t, d).tables;
            || t'.checkpoints == t.checkpoints
            || exists row :: t'.checkpoints == t.checkpoints + [row] && row.consumer == d.consumer
                && row.event == d.event
  {
    var t' := Process(t, d).tables;
    if t'.checkpoints != t.checkpoints {
      var row := t'.checkpoints[|t.checkpoints|];
      assert t'.checkpoints == t.checkpoints + [row];
    }
  }

  lemma CommitKeepsOthers(f: Family, w: World, i: nat, j: nat)
    requires Keyed(f) && Inv(f, w) && Enabled(f, w, Commit(i)) && j in w.sessions && j != i
    ensures SessionInv(f, Apply(f, w, Commit(i)), j)
  {
    var s, o := w.sessions[i], w.sessions[j];
    var v := Apply(f, w, Commit(i));
    assert SessionInv(f, w, i) && SessionInv(f, w, j);
    CommitIsSerial(f, w, i);
    ProcessAddsOwnRow(w.tables, s.d);
    ProcessOnlyAppends(w.tables, s.d);
    if o.at.Duplicate? {
      var k :| 0 <= k < |w.tables.checkpoints| && w.tables.checkpoints[k].consumer == o.d.consumer
               && w.tables.checkpoints[k].event.id == o.d.event.id;
      assert v.tables.checkpoints[k] == w.tables.checkpoints[k];
    }
    if v.tables.checkpoints != w.tables.checkpoints && HoldsLock(o.at) {
      assert s.at.Decided?;
      assert KeyOfDelivery(s.d) != KeyOfDelivery(o.d);
      assert !Contend(s.d, o.d);
      var row :| v.tables.checkpoints == w.tables.checkpoints + [row] && row.consumer == s.d.consumer
          && row.event == s.d.event;
      OtherRow(w.tables, v.tables, o.d, row);
    }
  }

  /** A statement before the commit leaves every session in order. */
  lemma StatementKeeps(f: Family, w: World, a: Action, j: nat)
    requires Inv(f, w) && Enabled(f, w, a) && !a.Commit? && j in Apply(f, w, a).sessions
    ensures SessionInv(f, Apply(f, w, a), j)
  {
    if j in w.sessions {
      assert SessionInv(f, w, j);
    }
    if a.i in w.sessions {
      assert SessionInv(f, w, a.i);
    }
  }

  lemma ActionKeepsInv(f: Family, w: World, a: Action)
    requires Keyed(f) && Inv(f, w) && Enabled(f, w, a)
    ensures Inv(f, Apply(f, w, a))
  {
    hide SessionInv, Decide;
    var v := Apply(f, w, a);
    if a.Commit? {
      CommitKeepsTables(f, w, a.i);
    }
    forall j | j in v.sessions
      ensures SessionInv(f, v, j)
    {
      if !a.Commit? {
        StatementKeeps(f, w, a, j);
      } else if j == a.i {
        CommitEnds(f, w, j);
      } else {
        CommitKeepsOthers(f, w, a.i, j);
      }
    }
  }

  lemma CommitKeepsTables(f: Family, w: World, i: nat)
    requires Inv(f, w) && Enabled(f, w, Commit(i))
    ensures var v := Apply(f, w, Commit(i)); v.tables == ProcessAll(EMPTY, v.done)
  {
    CommitIsSerial(f, w, i);
    var v := Apply(f, w, Commit(i));
    assert v.done[..|v.done| - 1] == w.done;
  }

  lemma CommitEnds(f: Family, w: World, i: nat)
    requires Inv(f, w) && Enabled(f, w, Commit(i))
    ensures SessionInv(f, Apply(f, w, Commit(i)), i)
  {
    assert SessionInv(f, w, i);
  }

  lemma {:induction false} RunsKeepInv(f: Family, w: World, acts: seq<Action>, v: World)
    requires Keyed(f) && Inv(f, w) && Reaches(f, w, acts, v)
    ensures Inv(f, v)
    decreases |acts|
  {
    if acts != [] {
      ActionKeepsInv(f, w, acts[0]);
      RunsKeepInv(f, Apply(f, w, acts[0]), acts[1..], v);
    }
  }

  /** Any interleaving of deliveries that contend only under one lock leaves the tables of a serial
      run over the committed ones, and therefore applies every aggregate's revisions consecutively,
      once and in order. */
  lemma RacesAreSerial(f: Family, acts: seq<Action>, v: World)
    requires Keyed(f) && Reaches(f, START, acts, v)
    ensures v.tables == ProcessAll(EMPTY, v.done)
    ensures Ordered(v.tables)
  {
    assert Inv(f, START);
    RunsKeepInv(f, START, acts, v);
    OrderedExactlyOnce(v.done);
  }

  // ----- deliveries that contend under two locks -----

  lemma {:induction false} Extend(f: Family, w: World, acts: seq<Action>, v: World,
                                  a: Action) returns (more: seq<Action>)
    requires Reaches(f, w, acts, v) && Enabled(f, v, a)
    ensures Reaches(f, w, more, Apply(f, v, a))
    decreases |acts|
  {
    if acts == [] {
      more := [a];
      assert [a][1..] == [];
    } else {
      var tail := Extend(f, Apply(f, w, acts[0]), acts[1..], v, a);
      more := [acts[0]] + tail;
      assert more[1..] == tail;
    }
  }

  /** Transactions 0 and 1, for `a` and `b`, before either has committed. */
  function Both(a: Delivery, b: Delivery, locks: map<LockKey, nat>, at: Point, bt: Point): World {
    World(EMPTY, locks, map[0 := Session(a, at), 1 := Session(b, bt)], [])
  }

  /** Both transactions read that nothing has been applied before either of them commits. */
  lemma BothRead(f: Family, a: Delivery, b: Delivery) returns (acts: seq<Action>)
    requires f(a) && f(b) && Contend(a, b) && KeyOfDelivery(a) != KeyOfDelivery(b)
    ensures Reaches(f, START, acts, Both(a, b, map[KeyOfDelivery(a) := 0, KeyOfDelivery(b) := 1], Decided(None),
                                         Decided(None)))
  {
    hide Reaches, Inv;
    var one, two := map[KeyOfDelivery(a) := 0], map[KeyOfDelivery(a) := 0, KeyOfDelivery(b) := 1];
    acts := Opened(f, a, b);
    acts := Extend(f, START, acts, Both(a, b, map[], Unchecked, Unchecked), Check(0));
    assert Apply(f, Both(a, b, map[], Unchecked, Unchecked), Check(0)) == Both(a, b, map[], Waiting, Unchecked);
    acts := Extend(f, START, acts, Both(a, b, map[], Waiting, Unchecked), Check(1));
    assert Apply(f, Both(a, b, map[], Waiting, Unchecked), Check(1)) == Both(a, b, map[], Waiting, Waiting);
    acts := Extend(f, START, acts, Both(a, b, map[], Waiting, Waiting), TakeLock(0));
    assert Apply(f, Both(a, b, map[], Waiting, Waiting), TakeLock(0)) == Both(a, b, one, Locked, Waiting);
    acts := Extend(f, START, acts, Both(a, b, one, Locked, Waiting), TakeLock(1));
    assert Apply(f, Both(a, b, one, Locked, Waiting), TakeLock(1)) == Both(a, b, two, Locked, Locked);
    acts := Decidedly(f, a, b, two, acts);
  }

  lemma Opened(f: Family, a: Delivery, b: Delivery) returns (acts: seq<Action>)
    requires f(a) && f(b)
    ensures Reaches(f, START, acts, Both(a, b, map[], Unchecked, Unchecked))
  {
    var first := Apply(f, START, Open(0, a));
    acts := Extend(f, START, [], START, Open(0, a));
    acts := Extend(f, START, acts, first, Open(1, b));
    assert Apply(f, first, Open(1, b)) == Both(a, b, map[], Unchecked, Unchecked);
  }

  lemma Decidedly(f: Family, a: Delivery, b: Delivery, locks: map<LockKey, nat>, acts: seq<Action>)
    returns (more: seq<Action>)
    requires Reaches(f, START, acts, Both(a, b, locks, Locked, Locked))
    ensures Reaches(f, START, more, Both(a, b, locks, Decided(None), Decided(None)))
  {
    hide Reaches;
    more := Extend(f, START, acts, Both(a, b, locks, Locked, Locked), Recheck(0));
    assert Apply(f, Both(a, b, locks, Locked, Locked), Recheck(0)) == Both(a, b, locks, Rechecked, Locked);
    more := Extend(f, START, more, Both(a, b, locks, Rechecked, Locked), Recheck(1));
    assert Apply(f, Both(a, b, locks, Rechecked, Locked), Recheck(1)) == Both(a, b, locks, Rechecked, Rechecked);
    more := Extend(f, START, more, Both(a, b, locks, Rechecked, Rechecked), ReadRevision(0));
    assert Apply(f, Both(a, b, locks, Rechecked, Rechecked), ReadRevision(0))
           == Both(a, b, locks, Decided(None), Rechecked);
    more := Extend(f, START, more, Both(a, b, locks, Decided(None), Rechecked), ReadRevision(1));
    assert Apply(f, Both(a, b, locks, Decided(None), Rechecked), ReadRevision(1))
           == Both(a, b, locks, Decided(None), Decided(None));
  }

  /** The tables after both have committed on what they read. */
  function AppliedTwice(a: Delivery, b: Delivery): Tables {
    Decide(Decide(EMPTY, a, None).tables, b, None).tables
  }

  lemma BothCommit(f: Family, a: Delivery, b: Delivery) returns (acts: seq<Action>, v: World)
    requires f(a) && f(b) && Contend(a, b) && KeyOfDelivery(a) != KeyOfDelivery(b)
    requires a.event.safe && b.event.safe
    ensures Reaches(f, START, acts, v) && v.tables == AppliedTwice(a, b) && v.done == [a, b]
  {
    hide Reaches;
    acts := BothRead(f, a, b);
    var w := Both(a, b, map[KeyOfDelivery(a) := 0, KeyOfDelivery(b) := 1], Decided(None), Decided(None));
    acts := Extend(f, START, acts, w, Commit(0));
    var mid := Apply(f, w, Commit(0));
    acts := Extend(f, START, acts, mid, Commit(1));
    v := Apply(f, mid, Commit(1));
  }

  /** One of the two commit orders is no serial run and breaks the order. */
  predicate Clash(a: Delivery, b: Delivery) {
    a.event.id == b.event.id || b.event.revision != a.event.revision + 1
  }

  /** What the first delivery leaves, alone or not. */
  lemma AppliedFirst(a: Delivery)
    requires a.event.schemaVersion == 1 && !Stale(a) && a.event.safe
    ensures Decide(EMPTY, a, None).tables == Tables([AppliedRowOf(a)], [EntryOf(a.event)], [])
    ensures ProcessAll(EMPTY, [a]) == Decide(EMPTY, a, None).tables
    ensures CurrentRevision([AppliedRowOf(a)], a.consumer, a.event.aggregateID) == Some(a.event.revision)
    ensures AppliedRevisions([AppliedRowOf(a)], a.consumer, a.event.aggregateID) == [a.event.revision]
    ensures AppliedEntries([AppliedRowOf(a)]) == [EntryOf(a.event)]
  {
    assert [a][..0] == [] && [AppliedRowOf(a)][..0] == [];
    assert [] + [a.event.revision] == [a.event.revision] && [] + [EntryOf(a.event)] == [EntryOf(a.event)];
  }

  lemma SerialPair(a: Delivery, b: Delivery)
    ensures ProcessAll(EMPTY, [a, b]) == Process(ProcessAll(EMPTY, [a]), b).tables
  {
    assert [a, b][..1] == [a];
  }

  /** Under one event id the second transaction has a stream entry but no row. */
  lemma SameEventBreaksOrder(a: Delivery, b: Delivery)
    requires Contend(a, b) && a.event.safe && b.event.safe && a.event.id == b.event.id
    ensures AppliedTwice(a, b) != ProcessAll(EMPTY, [a, b]) && !Ordered(AppliedTwice(a, b))
  {
    AppliedFirst(a);
    SerialPair(a, b);
    var one := Tables([AppliedRowOf(a)], [EntryOf(a.event)], []);
    assert one.checkpoints[0] == AppliedRowOf(a);
    assert HasRow(one.checkpoints, b.consumer, b.event.id);
    hide ProcessAll, AppliedEntries, AppliedRevisions, CurrentRevision;
    assert AppliedTwice(a, b).checkpoints == [AppliedRowOf(a)] && |AppliedTwice(a, b).stream| == 2;
  }

  /** Of two events of an aggregate, a second transaction that read nothing applies what is not next. */
  lemma RevisionBreaksOrder(a: Delivery, b: Delivery)
    requires Contend(a, b) && a.event.safe && b.event.safe && a.event.id != b.event.id
    requires b.event.revision != a.event.revision + 1
    ensures AppliedTwice(a, b) != ProcessAll(EMPTY, [a, b]) && !Ordered(AppliedTwice(a, b))
  {
    AppliedFirst(a);
    SerialPair(a, b);
    var one, rows := Tables([AppliedRowOf(a)], [EntryOf(a.event)], []), [AppliedRowOf(a), AppliedRowOf(b)];
    assert one.checkpoints[0] == AppliedRowOf(a);
    assert rows[..1] == [AppliedRowOf(a)];
    var revs := AppliedRevisions(rows, a.consumer, a.event.aggregateID);
    assert revs == [a.event.revision] + [b.event.revision];
    hide ProcessAll, AppliedEntries, AppliedRevisions, CurrentRevision;
    assert !HasRow(one.checkpoints, b.consumer, b.event.id);
    assert AppliedTwice(a, b).checkpoints == rows && |AppliedTwice(a, b).stream| == 2;
    assert revs[0] == a.event.revision && revs[1] == b.event.revision;
    assert !Consecutive(revs);
  }

  lemma ClashBreaksOrder(a: Delivery, b: Delivery)
    requires Contend(a, b) && a.event.safe && b.event.safe && Clash(a, b)
    ensures AppliedTwice(a, b) != ProcessAll(EMPTY, [a, b]) && !Ordered(AppliedTwice(a, b))
  {
    hide Ordered, AppliedTwice, ProcessAll;
    if a.event.id == b.event.id {
      SameEventBreaksOrder(a, b);
    } else {
      RevisionBreaksOrder(a, b);
    }
  }

  lemma ClashInOneOrder(d: Delivery, e: Delivery)
    ensures Clash(d, e) || Clash(e, d)
  {
  }

  /** For events that pass the payload check, as every event of the outbox does, one lock for all that
      contend is exactly what it takes: the condition holds if and only if every run is serial, and
      if and only if every run keeps the order. */
  lemma SerialExactly(f: Family)
    requires forall d :: f(d) ==> d.event.safe
    ensures Keyed(f) <==> forall acts, v :: Reaches(f, START, acts, v) ==> v.tables == ProcessAll(EMPTY, v.done)
    ensures Keyed(f) <==> forall acts, v :: Reaches(f, START, acts, v) ==> Ordered(v.tables)
  {
    hide Reaches, Ordered, ProcessAll;
    if Keyed(f) {
      forall acts, v | Reaches(f, START, acts, v)
        ensures v.tables == ProcessAll(EMPTY, v.done) && Ordered(v.tables)
      {
        RacesAreSerial(f, acts, v);
      }
    } else {
      var d, e :| f(d) && f(e) && Contend(d, e) && KeyOfDelivery(d) != KeyOfDelivery(e);
      ClashInOneOrder(d, e);
      var a, b := if Clash(d, e) then d else e, if Clash(d, e) then e else d;
      var acts, v := BothCommit(f, a, b);
      ClashBreaksOrder(a, b);
      assert Reaches(f, START, acts, v);
    }
  }

  /** A consumer of two aggregate types that share an identifier: both first revisions are applied. */
  lemma SharedConsumerBreaksOrder() returns (acts: seq<Action>, v: World)
    ensures var one := Delivery(Event("e1", "w", "o", "x", 1, 1, None, true), "c", None);
            var two := Delivery(Event("e2", "w", "b", "x", 1, 1, None, true), "c", None);
            && Reaches((d: Delivery) => d == one || d == two, START, acts, v)
            && AppliedRevisions(v.tables.checkpoints, "c", "x") == [1, 1] && !Ordered(v.tables)
  {
    var one := Delivery(Event("e1", "w", "o", "x", 1, 1, None, true), "c", None);
    var two := Delivery(Event("e2", "w", "b", "x", 1, 1, None, true), "c", None);
    assert KeyOfDelivery(one) == "c:w:o:x" && KeyOfDelivery(two) == "c:w:b:x" && "c:w:o:x"[4] != "c:w:b:x"[4];
    hide Reaches, KeyOfDelivery, Ordered;
    acts, v := BothCommit((d: Delivery) => d == one || d == two, one, two);
    ClashBreaksOrder(one, two);
    FirstRevisions(one, two);
  }

  lemma FirstRevisions(a: Delivery, b: Delivery)
    requires Contend(a, b) && a.event.safe && b.event.safe && a.event.id != b.event.id
    requires a.event.aggregateID == b.event.aggregateID
    ensures AppliedTwice(a, b).checkpoints == [AppliedRowOf(a)] + [AppliedRowOf(b)]
    ensures AppliedRevisions(AppliedTwice(a, b).checkpoints, a.consumer, a.event.aggregateID)
            == [a.event.revision, b.event.revision]
  {
    AppliedFirst(a);
    hide ProcessAll, CurrentRevision, AppliedRevisions;
    AppliedAfterRow([AppliedRowOf(a)], AppliedRowOf(b), a.consumer, a.event.aggregateID);
    assert [AppliedRowOf(a)][0] == AppliedRowOf(a);
    assert [a.event.revision] + [b.event.revision] == [a.event.revision, b.event.revision];
  }
}
