/** The operation stream under the commands of a start: every run of their transactions is a run of the
    stream, so the entries that they commit carry rising identifiers. */
module StartStream {
  import opened CheckpointModel
  import opened EventProjection
  import opened StartCommand
  import opened StartRaces
  import opened StartSerial
  import PR = ProjectionRaces
  import S = OperationStream

  function EntriesOf(rows: seq<S.StreamRow>): (es: seq<StreamEntry>)
    ensures |es| == |rows| && forall k :: 0 <= k < |rows| ==> es[k] == rows[k].entry
  {
    if rows == [] then [] else [rows[0].entry] + EntriesOf(rows[1..])
  }

  lemma EntriesJoin(a: seq<S.StreamRow>, b: seq<S.StreamRow>)
    ensures EntriesOf(a + b) == EntriesOf(a) + EntriesOf(b)
  {
  }

  function WorkOfSession(w: World, i: nat): seq<StreamEntry> {
    if i in w.sessions then w.sessions[i].work.stream else []
  }

  ghost predicate SameEntries(w: World, x: S.Stream) {
    && EntriesOf(x.visible) == w.db.tables.stream
    && forall i: nat :: EntriesOf(S.Pending(x, i)) == WorkOfSession(w, i)
  }

  ghost predicate SameFences(w: World, x: S.Stream) {
    && (forall name :: name in x.fences <==> StreamFence(name) in w.locks)
    && (forall name :: name in x.fences ==> x.fences[name] == w.locks[StreamFence(name)])
  }

  /** The stream `x` shows what the database shows, and holds what the transactions have written and the
      locks they have taken. */
  ghost predicate Mirrors(w: World, x: S.Stream) {
    SameEntries(w, x) && SameFences(w, x)
  }

  /** What an action does to the stream, by what its statement writes: nothing, one append, or the end
      of what the transaction has appended. */
  function ActsOf(w: World, a: Action): seq<S.Act>
    requires Enabled(w, a)
  {
    match a
    case Run(i) =>
      var s := w.sessions[i];
      var m := Next(w.db, s);
      if m.at.Ended? then [S.Abort(i)]
      else if |s.work.stream| < |m.work.stream| then [S.Append(i, m.work.stream[|s.work.stream|])]
      else []
    case Commit(i) => [S.Commit(i)]
    case Abort(i) => [S.Abort(i)]
    case _ => []
  }

  function StreamActs(w: World, acts: seq<Action>, v: World): seq<S.Act>
    requires Reaches(w, acts, v)
    decreases |acts|
  {
    if acts == [] then [] else ActsOf(w, acts[0]) + StreamActs(Apply(w, acts[0]), acts[1..], v)
  }

  /** A statement appends one entry under the lock of its workspace, or leaves stream and lock alone. */
  predicate Streams(s: Session, m: Move) {
    || (m.work.stream == s.work.stream && forall k :: k in m.needs ==> !k.StreamFence?)
    || (&& |m.work.stream| == |s.work.stream| + 1 && s.work.stream < m.work.stream
        && m.needs == {StreamFence(m.work.stream[|s.work.stream|].workspace)})
  }

  lemma GateStreams(v: Database, s: Session, d: Delivery, gate: Gate)
    requires !s.c.CmdStart?
    ensures Streams(s, ProcessNext(v, s, d, gate))
  {
    hide HasRow, CurrentRevision, PR.KeyOfDelivery;
  }

  lemma NextStreams(db: Database, owned: set<Lock>, s: Session)
    requires SessionInv(db, owned, s) && Busy(s)
    ensures !s.c.CmdStart? && Streams(s, Next(db, s))
  {
    NoStartSession(db, owned, s);
    match s.at
    case Processing(d, gate) => GateStreams(View(db, s.c, s.work), s, d, gate);
    case _ =>
      hide View, HoldsRows, Ready, AcceptedApplied, EventIDTaken, CurrentRevision, HasRow, QueuedInOrder, FencesHeld,
          ProcessNext;
  }

  /** The transaction's end, committed or not, is the end of what it does to the stream. */
  lemma EndMirrors(w: World, x: S.Stream, i: nat, reply: Reply, db: Database, rows: seq<S.StreamRow>)
    requires Mirrors(w, x) && i in w.sessions
    requires db.tables.stream == w.db.tables.stream + EntriesOf(rows)
    ensures Mirrors(End(w, i, reply, db), S.End(x, i, rows))
  {
    EntriesJoin(x.visible, rows);
    var v, y := End(w, i, reply, db), S.End(x, i, rows);
    forall j: nat
      ensures EntriesOf(S.Pending(y, j)) == WorkOfSession(v, j)
    {
      assert EntriesOf(S.Pending(x, j)) == WorkOfSession(w, j);
    }
    forall name
      ensures name in y.fences <==> StreamFence(name) in v.locks
    {
      assert name in x.fences <==> StreamFence(name) in w.locks;
    }
  }

  /** A statement that does not end its transaction. */
  lemma MoveMirrors(w: World, x: S.Stream, i: nat) returns (y: S.Stream)
    requires Mirrors(w, x) && Enabled(w, Run(i)) && Streams(w.sessions[i], Next(w.db, w.sessions[i]))
    requires !Next(w.db, w.sessions[i]).at.Ended?
    ensures S.Reaches(x, ActsOf(w, Run(i)), y) && Mirrors(Apply(w, Run(i)), y)
  {
    hide Next;
    var s, v := w.sessions[i], Apply(w, Run(i));
    var m := Next(w.db, s);
    if m.work.stream == s.work.stream {
      y := x;
      forall j: nat
        ensures EntriesOf(S.Pending(y, j)) == WorkOfSession(v, j)
      {
        assert EntriesOf(S.Pending(x, j)) == WorkOfSession(w, j);
      }
    } else {
      y := AppendMirrors(w, x, i, m.work.stream[|s.work.stream|]);
    }
  }

  predicate RunAppends(w: World, i: nat, entry: StreamEntry) {
    && Enabled(w, Run(i)) && !Next(w.db, w.sessions[i]).at.Ended?
    && var m := Next(w.db, w.sessions[i]);
       m.needs == {StreamFence(entry.workspace)} && m.work.stream == w.sessions[i].work.stream + [entry]
  }

  lemma AppendedEntries(w: World, x: S.Stream, i: nat, entry: StreamEntry)
    requires SameEntries(w, x) && RunAppends(w, i, entry)
    ensures SameEntries(Apply(w, Run(i)), S.Apply(x, S.Append(i, entry)))
  {
    hide Next;
    var v, y := Apply(w, Run(i)), S.Apply(x, S.Append(i, entry));
    EntriesJoin(S.Pending(x, i), [S.StreamRow(x.next, entry)]);
    forall j: nat
      ensures EntriesOf(S.Pending(y, j)) == WorkOfSession(v, j)
    {
      assert EntriesOf(S.Pending(x, j)) == WorkOfSession(w, j);
    }
  }

  lemma AppendedFence(w: World, x: S.Stream, i: nat, entry: StreamEntry)
    requires SameFences(w, x) && RunAppends(w, i, entry)
    ensures S.Enabled(x, S.Append(i, entry))
    ensures SameFences(Apply(w, Run(i)), S.Apply(x, S.Append(i, entry)))
  {
    hide Next;
    var v, y := Apply(w, Run(i)), S.Apply(x, S.Append(i, entry));
    forall name
      ensures name in y.fences <==> StreamFence(name) in v.locks
      ensures name in y.fences ==> y.fences[name] == v.locks[StreamFence(name)]
    {
      assert name in x.fences <==> StreamFence(name) in w.locks;
    }
  }

  lemma AppendMirrors(w: World, x: S.Stream, i: nat, entry: StreamEntry) returns (y: S.Stream)
    requires Mirrors(w, x) && RunAppends(w, i, entry)
    ensures S.Reaches(x, [S.Append(i, entry)], y) && Mirrors(Apply(w, Run(i)), y)
  {
    hide SameEntries, SameFences, Enabled, Next, Apply;
    AppendedEntries(w, x, i, entry);
    AppendedFence(w, x, i, entry);
    y := S.Apply(x, S.Append(i, entry));
    OneAct(x, S.Append(i, entry));
  }

  lemma OneAct(x: S.Stream, a: S.Act)
    requires S.Enabled(x, a)
    ensures S.Reaches(x, [a], S.Apply(x, a))
  {
    assert [a][1..] == [];
  }

  /** What an action does to the stream can be done there, and keeps the picture. */
  lemma ActionMirrors(w: World, workspace: string, x: S.Stream, a: Action) returns (y: S.Stream)
    requires Inv(w, workspace) && Mirrors(w, x) && Enabled(w, a)
    ensures S.Reaches(x, ActsOf(w, a), y) && Mirrors(Apply(w, a), y)
  {
    hide Next, SessionInv, ExecuteAll, View, StartBatch, EntriesOf, Mirrors;
    match a
    case Run(i) =>
      var s := w.sessions[i];
      NextStreams(w.db, OwnedBy(w, i), s);
      if Next(w.db, s).at.Ended? {
        y := S.Apply(x, S.Abort(i));
        OneAct(x, S.Abort(i));
        NothingAdded(w.db.tables.stream);
        EndMirrors(w, x, i, Next(w.db, s).at.reply, w.db, []);
      } else {
        y := MoveMirrors(w, x, i);
      }
    case Commit(i) =>
      var s := w.sessions[i];
      y := S.Apply(x, S.Commit(i));
      OneAct(x, S.Commit(i));
      CommittedEntries(w, x, i);
      EndMirrors(w, x, i, s.at.reply, View(w.db, s.c, s.work), S.Pending(x, i));
      DoneIsAside(End(w, i, s.at.reply, View(w.db, s.c, s.work)), w.done + [s.c], y);
    case Abort(i) =>
      y := S.Apply(x, S.Abort(i));
      OneAct(x, S.Abort(i));
      NothingAdded(w.db.tables.stream);
      EndMirrors(w, x, i, Unsafe, w.db, []);
    case Start(new', safe) =>
      y := x;
      StartMirrors(w, x, new', safe);
    case Open(i, c) =>
      y := x;
      OpenMirrors(w, x, i, c);
  }

  lemma NothingAdded(es: seq<StreamEntry>)
    ensures es + EntriesOf([]) == es
  {
  }

  lemma CommittedEntries(w: World, x: S.Stream, i: nat)
    requires Mirrors(w, x) && i in w.sessions && !w.sessions[i].c.CmdStart?
    ensures View(w.db, w.sessions[i].c, w.sessions[i].work).tables.stream
            == w.db.tables.stream + EntriesOf(S.Pending(x, i))
  {
    assert EntriesOf(S.Pending(x, i)) == WorkOfSession(w, i);
  }

  lemma DoneIsAside(w: World, done: seq<Command>, x: S.Stream)
    requires Mirrors(w, x)
    ensures Mirrors(w.(done := done), x)
  {
    forall i: nat
      ensures EntriesOf(S.Pending(x, i)) == WorkOfSession(w.(done := done), i)
    {
      assert EntriesOf(S.Pending(x, i)) == WorkOfSession(w, i);
    }
  }

  lemma StartMirrors(w: World, x: S.Stream, new': NewStart, safe: bool)
    requires Mirrors(w, x) && Enabled(w, Start(new', safe))
    ensures Mirrors(Apply(w, Start(new', safe)), x)
  {
    var v := Apply(w, Start(new', safe));
    forall i: nat
      ensures EntriesOf(S.Pending(x, i)) == WorkOfSession(v, i)
    {
      assert EntriesOf(S.Pending(x, i)) == WorkOfSession(w, i);
    }
  }

  lemma OpenMirrors(w: World, x: S.Stream, i: nat, c: Command)
    requires Mirrors(w, x) && Enabled(w, Open(i, c))
    ensures Mirrors(Apply(w, Open(i, c)), x)
  {
    var v := Apply(w, Open(i, c));
    forall j: nat
      ensures EntriesOf(S.Pending(x, j)) == WorkOfSession(v, j)
    {
      assert EntriesOf(S.Pending(x, j)) == WorkOfSession(w, j);
    }
  }

  lemma {:induction false} ActsJoin(x: S.Stream, a: seq<S.Act>, y: S.Stream, b: seq<S.Act>, z: S.Stream)
    requires S.Reaches(x, a, y) && S.Reaches(y, b, z)
    ensures S.Reaches(x, a + b, z)
    decreases |a|
  {
    hide S.Enabled, S.Apply;
    if a == [] {
      assert a + b == b;
    } else {
      assert (a + b)[1..] == a[1..] + b;
      ActsJoin(S.Apply(x, a[0]), a[1..], y, b, z);
    }
  }

  lemma {:induction false} RunMirrors(w: World, workspace: string, x: S.Stream, acts: seq<Action>, v: World)
    returns (y: S.Stream)
    requires Inv(w, workspace) && Mirrors(w, x) && Reaches(w, acts, v)
    ensures S.Reaches(x, StreamActs(w, acts, v), y) && Mirrors(v, y)
    decreases |acts|
  {
    hide Inv, Mirrors, Apply, Enabled, S.Reaches, ActsOf;
    if acts == [] {
      y := x;
      Still(x);
    } else {
      var z := ActionMirrors(w, workspace, x, acts[0]);
      ActionKeepsInv(w, workspace, acts[0]);
      y := RunMirrors(Apply(w, acts[0]), workspace, z, acts[1..], v);
      ActsJoin(x, ActsOf(w, acts[0]), z, StreamActs(Apply(w, acts[0]), acts[1..], v), y);
    }
  }

  lemma Still(x: S.Stream)
    ensures S.Reaches(x, [], x)
  {
  }

  lemma EmptyMirrors(workspace: string)
    ensures Mirrors(Empty(workspace), S.NO_ROWS) && Inv(Empty(workspace), workspace)
  {
    hide ExecuteAll;
    NothingDone(workspace);
  }

  /** However the commands of a start interleave: what they do to the stream is what the stream allows,
      and what they have committed is what it shows. So identifiers, drawn when a statement appends, rise
      in the order of the commits, and whatever a later commit adds comes behind. */
  lemma StreamOfRuns(workspace: string, before: seq<Action>, w: World, acts: seq<Action>, v: World)
    returns (x: S.Stream, y: S.Stream)
    requires Reaches(Empty(workspace), before, w) && Reaches(w, acts, v)
    ensures S.Reaches(S.NO_ROWS, StreamActs(Empty(workspace), before, w), x) && Mirrors(w, x)
    ensures S.Reaches(x, StreamActs(w, acts, v), y) && Mirrors(v, y)
    ensures S.Unique(y.visible) && S.Rising(y.visible)
    ensures x.visible <= y.visible && S.Behind(x.visible, y.visible[|x.visible|..])
  {
    hide Inv, Reaches, S.Reaches, StreamActs, Mirrors;
    EmptyMirrors(workspace);
    x := RunMirrors(Empty(workspace), workspace, S.NO_ROWS, before, w);
    RunsKeepInv(Empty(workspace), workspace, before, w);
    y := RunMirrors(w, workspace, x, acts, v);
    S.NoLateRows(StreamActs(Empty(workspace), before, w), x, StreamActs(w, acts, v), y);
  }
}
