/** The operation stream (infrastructure/db/projections/postgres.py). Every append takes the advisory
    lock of its workspace, draws the next identifier of one sequence, and inserts its row, all in one
    statement; the row becomes visible when the transaction commits, and the lock is held until then.
    A reader asks for the rows of a workspace behind a cursor and never misses one. */
module OperationStream {
  import opened CheckpointModel
  import opened EventProjection

  datatype StreamRow = StreamRow(id: nat, entry: StreamEntry)

  /** `visible` holds the committed rows in the order of their commits, `pending` what transactions
      under way have appended, `fences` who holds the lock of which workspace. */
  datatype Stream = Stream(visible: seq<StreamRow>, pending: map<nat, seq<StreamRow>>, fences: map<string, nat>,
                           next: nat)

  /** What transactions, of whatever kind, do to the stream; each may append any number of times. */
  datatype Act =
    | Append(i: nat, entry: StreamEntry)
    | Commit(i: nat)
    | Abort(i: nat)

  const NO_ROWS := Stream([], map[], map[], 1)

  function Pending(x: Stream, i: nat): seq<StreamRow> {
    if i in x.pending then x.pending[i] else []
  }

  /** An append waits while another transaction holds the lock of the workspace. */
  predicate Enabled(x: Stream, a: Act) {
    a.Append? && a.entry.workspace in x.fences ==> x.fences[a.entry.workspace] == a.i
  }

  /** The sequence moves on even if the transaction is rolled back later. */
  function Apply(x: Stream, a: Act): Stream {
    match a
    case Append(i, entry) =>
      Stream(x.visible, x.pending[i := Pending(x, i) + [StreamRow(x.next, entry)]],
             x.fences[entry.workspace := i], x.next + 1)
    case Commit(i) => End(x, i, Pending(x, i))
    case Abort(i) => End(x, i, [])
  }

  function End(x: Stream, i: nat, rows: seq<StreamRow>): Stream {
    Stream(x.visible + rows, x.pending - {i}, map k | k in x.fences && x.fences[k] != i :: x.fences[k], x.next)
  }

  predicate Reaches(x: Stream, acts: seq<Act>, y: Stream)
    decreases |acts|
  {
    if acts == [] then x == y else Enabled(x, acts[0]) && Reaches(Apply(x, acts[0]), acts[1..], y)
  }

  // ----- the order of the identifiers -----

  /** Within every workspace the identifiers rise. */
  predicate Rising(rows: seq<StreamRow>) {
    forall k, l :: 0 <= k < l < |rows| && rows[k].entry.workspace == rows[l].entry.workspace ==> rows[k].id < rows[l].id
  }

  /** Rows of `b` come behind the rows of `a` of their workspace. */
  predicate Behind(a: seq<StreamRow>, b: seq<StreamRow>) {
    forall r, q :: r in a && q in b && r.entry.workspace == q.entry.workspace ==> r.id < q.id
  }

  predicate Disjoint(a: seq<StreamRow>, b: seq<StreamRow>) {
    forall r, q :: r in a && q in b ==> r.id != q.id
  }

  predicate Unique(rows: seq<StreamRow>) {
    forall k, l :: 0 <= k < l < |rows| ==> rows[k].id != rows[l].id
  }

  /** What a transaction has appended and not committed. */
  predicate PendingInv(x: Stream, i: nat, rows: seq<StreamRow>) {
    && (forall r :: r in rows ==> 0 < r.id < x.next)
    && (forall r :: r in rows ==> r.entry.workspace in x.fences && x.fences[r.entry.workspace] == i)
    && Rising(rows) && Unique(rows)
    && Behind(x.visible, rows) && Disjoint(x.visible, rows)
  }

  predicate Inv(x: Stream) {
    && 0 < x.next && (forall r :: r in x.visible ==> 0 < r.id < x.next)
    && Rising(x.visible) && Unique(x.visible)
    && (forall i :: i in x.pending ==> PendingInv(x, i, x.pending[i]))
    && (forall i, j :: i in x.pending && j in x.pending && i != j ==> Disjoint(x.pending[i], x.pending[j]))
  }

  lemma PendingInOrder(x: Stream, i: nat)
    requires Inv(x)
    ensures PendingInv(x, i, Pending(x, i))
  {
  }

  lemma RisesByOne(rows: seq<StreamRow>, row: StreamRow)
    requires Rising(rows) && Unique(rows) && forall r :: r in rows ==> r.id < row.id
    ensures Rising(rows + [row]) && Unique(rows + [row])
  {
    var all := rows + [row];
    forall k, l | 0 <= k < l < |all|
      ensures all[k].id != all[l].id && (all[k].entry.workspace == all[l].entry.workspace ==> all[k].id < all[l].id)
    {
      assert all[k] in rows;
    }
  }

  lemma OwnAppend(x: Stream, i: nat, entry: StreamEntry)
    requires PendingInv(x, i, Pending(x, i)) && 0 < x.next && forall r :: r in x.visible ==> r.id < x.next
    ensures PendingInv(Apply(x, Append(i, entry)), i, Pending(x, i) + [StreamRow(x.next, entry)])
  {
    hide Rising, Unique;
    RisesByOne(Pending(x, i), StreamRow(x.next, entry));
  }

  lemma OtherAppend(x: Stream, i: nat, entry: StreamEntry, j: nat, rows: seq<StreamRow>)
    requires Enabled(x, Append(i, entry)) && j != i && PendingInv(x, j, rows)
    ensures PendingInv(Apply(x, Append(i, entry)), j, rows)
  {
    hide Rising, Unique, Behind, Disjoint;
  }

  lemma NewIsDisjoint(x: Stream, i: nat, j: nat, entry: StreamEntry)
    requires Inv(x) && j in x.pending && i != j
    ensures Disjoint(Pending(x, i) + [StreamRow(x.next, entry)], x.pending[j])
    ensures Disjoint(x.pending[j], Pending(x, i) + [StreamRow(x.next, entry)])
  {
    hide Rising, Unique, Behind;
    assert PendingInv(x, j, x.pending[j]);
  }

  lemma AppendKeepsInv(x: Stream, i: nat, entry: StreamEntry)
    requires Inv(x) && Enabled(x, Append(i, entry))
    ensures Inv(Apply(x, Append(i, entry)))
  {
    hide Rising, Unique, Behind, Disjoint, PendingInv;
    var y := Apply(x, Append(i, entry));
    PendingInOrder(x, i);
    OwnAppend(x, i, entry);
    forall j | j in y.pending && j != i
      ensures PendingInv(y, j, y.pending[j])
      ensures Disjoint(y.pending[i], y.pending[j]) && Disjoint(y.pending[j], y.pending[i])
    {
      OtherAppend(x, i, entry, j, x.pending[j]);
      NewIsDisjoint(x, i, j, entry);
    }
  }

  /** Rows of one transaction join the visible ones. */
  lemma VisibleInOrder(x: Stream, i: nat, rows: seq<StreamRow>)
    requires PendingInv(x, i, rows) && Rising(x.visible) && Unique(x.visible)
    ensures Rising(x.visible + rows) && Unique(x.visible + rows)
  {
    var all := x.visible + rows;
    forall k, l | 0 <= k < l < |all|
      ensures all[k].id != all[l].id && (all[k].entry.workspace == all[l].entry.workspace ==> all[k].id < all[l].id)
    {
      assert k < |x.visible| ==> all[k] in x.visible;
      assert l >= |x.visible| ==> all[l] in rows;
    }
  }

  lemma OthersStay(x: Stream, i: nat, rows: seq<StreamRow>, j: nat, own: seq<StreamRow>)
    requires PendingInv(x, i, rows) && PendingInv(x, j, own) && i != j && Disjoint(rows, own)
    ensures PendingInv(End(x, i, rows), j, own)
  {
    hide Rising, Unique;
  }

  lemma EndKeepsInv(x: Stream, i: nat, rows: seq<StreamRow>)
    requires Inv(x) && (rows == [] || rows == Pending(x, i))
    ensures Inv(End(x, i, rows))
  {
    hide Rising, Unique, Behind, PendingInv;
    var y := End(x, i, rows);
    PendingInOrder(x, i);
    NothingInOrder(x, i);
    VisibleInOrder(x, i, rows);
    RowsIssued(x, i, rows);
    forall j | j in y.pending
      ensures PendingInv(y, j, y.pending[j])
    {
      OthersStay(x, i, rows, j, x.pending[j]);
    }
  }

  lemma NothingInOrder(x: Stream, i: nat)
    ensures PendingInv(x, i, [])
  {
  }

  lemma RowsIssued(x: Stream, i: nat, rows: seq<StreamRow>)
    requires PendingInv(x, i, rows)
    ensures forall r :: r in rows ==> 0 < r.id < x.next
  {
  }

  lemma ActKeepsInv(x: Stream, a: Act)
    requires Inv(x) && Enabled(x, a)
    ensures Inv(Apply(x, a))
  {
    hide Inv;
    match a
    case Append(i, entry) => AppendKeepsInv(x, i, entry);
    case Commit(i) => EndKeepsInv(x, i, Pending(x, i));
    case Abort(i) => EndKeepsInv(x, i, []);
  }

  lemma ActAddsBehind(x: Stream, a: Act)
    requires Inv(x) && Enabled(x, a)
    ensures x.visible <= Apply(x, a).visible && Behind(x.visible, Apply(x, a).visible[|x.visible|..])
  {
    if a.Commit? && a.i in x.pending {
      assert PendingInv(x, a.i, x.pending[a.i]);
    }
  }

  lemma {:induction false} RunsAddBehind(x: Stream, acts: seq<Act>, y: Stream)
    requires Inv(x) && Reaches(x, acts, y)
    ensures Inv(y) && x.visible <= y.visible && Behind(x.visible, y.visible[|x.visible|..])
    decreases |acts|
  {
    hide Inv, Enabled, Apply;
    if acts != [] {
      var z := Apply(x, acts[0]);
      ActKeepsInv(x, acts[0]);
      ActAddsBehind(x, acts[0]);
      RunsAddBehind(z, acts[1..], y);
      var n, more := |x.visible|, y.visible[|x.visible|..];
      forall r, q | r in x.visible && q in more && r.entry.workspace == q.entry.workspace
        ensures r.id < q.id
      {
        var k :| 0 <= k < |more| && more[k] == q;
        assert r in z.visible;
        if n + k < |z.visible| {
          assert z.visible[n..][k] == q;
        } else {
          assert y.visible[|z.visible|..][n + k - |z.visible|] == q;
        }
      }
    }
  }

  /** However transactions interleave their appends, commits and aborts: identifiers are unique, those
      of a workspace become visible in rising order, and no commit ever brings a row in front of one
      that was visible before. */
  lemma NoLateRows(before: seq<Act>, x: Stream, acts: seq<Act>, y: Stream)
    requires Reaches(NO_ROWS, before, x) && Reaches(x, acts, y)
    ensures Rising(y.visible) && Unique(y.visible)
    ensures x.visible <= y.visible && Behind(x.visible, y.visible[|x.visible|..])
  {
    RunsAddBehind(NO_ROWS, before, x);
    RunsAddBehind(x, acts, y);
  }

  /** Across workspaces there is no such order: a concrete run shows identifier 2 before identifier 1. */
  lemma OrderIsPerWorkspace() returns (acts: seq<Act>, x: Stream)
    ensures Reaches(NO_ROWS, acts, x) && |x.visible| == 2 && x.visible[0].id == 2 && x.visible[1].id == 1
  {
    var one, two := Append(0, StreamEntry("v", "t", "a", 1)), Append(1, StreamEntry("w", "t", "a", 1));
    assert "v"[0] != "w"[0];
    var a := Apply(NO_ROWS, one);
    var b := Apply(a, two);
    var c := Apply(b, Commit(1));
    x := Apply(c, Commit(0));
    acts := [one, two, Commit(1), Commit(0)];
    assert acts[1..] == [two, Commit(1), Commit(0)] && acts[1..][1..] == [Commit(1), Commit(0)];
    assert acts[1..][1..][1..] == [Commit(0)];
    assert Reaches(c, [Commit(0)], x);
    assert Reaches(b, [Commit(1), Commit(0)], x);
    assert Reaches(a, [two, Commit(1), Commit(0)], x);
  }

  // ----- a reader -----

  /** The rows of the workspace behind the cursor, as they became visible. */
  function Beyond(rows: seq<StreamRow>, workspace: string, cursor: nat): seq<StreamRow> {
    if rows == [] then []
    else
      (if rows[0].entry.workspace == workspace && rows[0].id > cursor then [rows[0]] else [])
      + Beyond(rows[1..], workspace, cursor)
  }

  /** The identifiers rise. */
  predicate Ascending(rows: seq<StreamRow>) {
    forall k, l :: 0 <= k < l < |rows| ==> rows[k].id < rows[l].id
  }

  predicate Wanted(r: StreamRow, workspace: string, cursor: nat) {
    r.entry.workspace == workspace && r.id > cursor
  }

  /** What a query for the workspace's rows behind the cursor, ordered by identifier, gives within its
      limit. */
  predicate IsPage(rows: seq<StreamRow>, workspace: string, cursor: nat, limit: nat, page: seq<StreamRow>) {
    && |page| <= limit && Ascending(page)
    && (forall r :: r in page ==> r in rows && Wanted(r, workspace, cursor))
    && (forall r :: r in rows && Wanted(r, workspace, cursor) && r !in page ==>
          |page| == limit && forall q :: q in page ==> q.id < r.id)
  }

  /** The largest identifier of the workspace that is visible, or 0. */
  function HighWater(rows: seq<StreamRow>, workspace: string): nat {
    if rows == [] then 0
    else
      var last := rows[|rows| - 1];
      var before := HighWater(rows[..|rows| - 1], workspace);
      if last.entry.workspace == workspace && last.id > before then last.id else before
  }

  lemma {:induction false} BeyondHolds(rows: seq<StreamRow>, workspace: string, cursor: nat)
    ensures forall r :: r in Beyond(rows, workspace, cursor) <==> r in rows && Wanted(r, workspace, cursor)
  {
    if rows != [] {
      BeyondHolds(rows[1..], workspace, cursor);
      assert rows == [rows[0]] + rows[1..];
    }
  }

  lemma BeyondFirst(rows: seq<StreamRow>, workspace: string, cursor: nat)
    requires rows != []
    ensures var tail := Beyond(rows[1..], workspace, cursor);
            Beyond(rows, workspace, cursor) == if Wanted(rows[0], workspace, cursor) then [rows[0]] + tail else tail
  {
  }

  lemma {:induction false} BeyondRises(rows: seq<StreamRow>, workspace: string, cursor: nat)
    requires Rising(rows)
    ensures Ascending(Beyond(rows, workspace, cursor))
  {
    if rows != [] {
      BeyondRises(rows[1..], workspace, cursor);
      BeyondHolds(rows[1..], workspace, cursor);
      BeyondFirst(rows, workspace, cursor);
      var tail := Beyond(rows[1..], workspace, cursor);
      hide Beyond, Rising;
      if Wanted(rows[0], workspace, cursor) {
        RestIsBehind(rows, workspace);
        assert forall k :: 0 <= k < |tail| ==> tail[k] in tail;
      }
    }
  }

  lemma {:induction false} SameRows(a: seq<StreamRow>, b: seq<StreamRow>)
    requires Ascending(a) && Ascending(b) && forall r :: r in a <==> r in b
    ensures a == b
  {
    assert forall k :: 0 <= k < |a| ==> a[k] in a;
    assert forall k :: 0 <= k < |b| ==> b[k] in b;
    if a != [] && b != [] {
      SameFirst(a, b);
      SameFirst(b, a);
      forall r
        ensures r in a[1..] <==> r in b[1..]
      {
        NotFirst(a, r);
        NotFirst(b, r);
      }
      SameRows(a[1..], b[1..]);
      assert a == [a[0]] + a[1..] && b == [b[0]] + b[1..];
    }
  }

  lemma SameFirst(a: seq<StreamRow>, b: seq<StreamRow>)
    requires Ascending(a) && Ascending(b) && a != [] && b != [] && forall r :: r in a <==> r in b
    ensures a[0] == b[0]
  {
    assert a[0] in b && b[0] in a;
    var k :| 0 <= k < |b| && b[k] == a[0];
    var l :| 0 <= l < |a| && a[l] == b[0];
  }

  lemma NotFirst(a: seq<StreamRow>, r: StreamRow)
    requires Ascending(a) && a != []
    ensures r in a[1..] <==> r in a && r != a[0]
  {
    if r in a && r != a[0] {
      var k :| 0 <= k < |a| && a[k] == r;
      assert a[1..][k - 1] == r;
    }
    if r in a[1..] {
      var k :| 0 <= k < |a[1..]| && a[1..][k] == r;
      assert a[k + 1] == r;
    }
  }

  lemma {:induction false} BeyondJoins(a: seq<StreamRow>, b: seq<StreamRow>, workspace: string, cursor: nat)
    ensures Beyond(a + b, workspace, cursor) == Beyond(a, workspace, cursor) + Beyond(b, workspace, cursor)
  {
    if a == [] {
      assert a + b == b;
    } else {
      assert (a + b)[1..] == a[1..] + b;
      BeyondJoins(a[1..], b, workspace, cursor);
    }
  }

  lemma {:induction false} BeyondAll(rows: seq<StreamRow>, workspace: string, c: nat, d: nat)
    requires forall r :: r in rows && r.entry.workspace == workspace ==> r.id > c && r.id > d
    ensures Beyond(rows, workspace, c) == Beyond(rows, workspace, d)
  {
    if rows != [] {
      BeyondAll(rows[1..], workspace, c, d);
    }
  }

  /** Advancing the cursor to the k-th of the rows behind it drops the first k. */
  lemma BeyondAdvances(rows: seq<StreamRow>, workspace: string, cursor: nat, k: nat)
    requires Rising(rows) && 0 < k <= |Beyond(rows, workspace, cursor)|
    ensures var b := Beyond(rows, workspace, cursor); Beyond(rows, workspace, b[k - 1].id) == b[k..]
  {
    var b := Beyond(rows, workspace, cursor);
    var c := b[k - 1].id;
    BeyondRises(rows, workspace, cursor);
    BeyondRises(rows, workspace, c);
    BeyondHolds(rows, workspace, cursor);
    BeyondHolds(rows, workspace, c);
    hide Beyond, Rising;
    assert b[k - 1] in b;
    forall r
      ensures r in b[k..] <==> r in b && r.id > c
    {
      Later(b, k, r);
    }
    SameRows(Beyond(rows, workspace, c), b[k..]);
  }

  lemma Later(b: seq<StreamRow>, k: nat, r: StreamRow)
    requires Ascending(b) && 0 < k <= |b|
    ensures r in b[k..] <==> r in b && r.id > b[k - 1].id
  {
    if r in b && r.id > b[k - 1].id {
      var j :| 0 <= j < |b| && b[j] == r;
      assert b[k..][j - k] == r;
    }
    if r in b[k..] {
      var j :| 0 <= j < |b[k..]| && b[k..][j] == r;
      assert b[k + j] == r;
    }
  }

  /** The rows behind the cursor, and nothing else, in the order of their identifiers. */
  ghost predicate IsRest(rows: seq<StreamRow>, workspace: string, cursor: nat, b: seq<StreamRow>) {
    Ascending(b) && forall q :: q in b <==> q in rows && Wanted(q, workspace, cursor)
  }

  lemma BeyondIsRest(rows: seq<StreamRow>, workspace: string, cursor: nat)
    requires Rising(rows)
    ensures IsRest(rows, workspace, cursor, Beyond(rows, workspace, cursor))
  {
    BeyondRises(rows, workspace, cursor);
    BeyondHolds(rows, workspace, cursor);
  }

  lemma ShortPage(rows: seq<StreamRow>, workspace: string, cursor: nat, limit: nat, page: seq<StreamRow>,
                  b: seq<StreamRow>)
    requires IsPage(rows, workspace, cursor, limit, page) && IsRest(rows, workspace, cursor, b) && |page| < limit
    ensures page == b
  {
    SameRows(page, b);
  }

  lemma PageIsPrefix(rows: seq<StreamRow>, workspace: string, cursor: nat, limit: nat, page: seq<StreamRow>,
                     b: seq<StreamRow>)
    requires IsPage(rows, workspace, cursor, limit, page) && IsRest(rows, workspace, cursor, b) && page != []
    ensures |page| <= |b| && page == b[..|page|]
  {
    var last := page[|page| - 1];
    assert last in page && last in b;
    var k :| 0 <= k < |b| && b[k] == last;
    forall r
      ensures r in page <==> r in b[..k + 1]
    {
      PageHolds(rows, workspace, cursor, limit, page, b, k, r);
    }
    hide IsPage, IsRest;
    assert Ascending(b) && Ascending(page) by { PagesRise(rows, workspace, cursor, limit, page, b); }
    SameRows(page, b[..k + 1]);
  }

  lemma PagesRise(rows: seq<StreamRow>, workspace: string, cursor: nat, limit: nat, page: seq<StreamRow>,
                  b: seq<StreamRow>)
    requires IsPage(rows, workspace, cursor, limit, page) && IsRest(rows, workspace, cursor, b)
    ensures Ascending(page) && Ascending(b)
  {
  }

  /** On a stream in order a page is the next rows behind the cursor, in the order they became visible. */
  lemma PageIsNext(rows: seq<StreamRow>, workspace: string, cursor: nat, limit: nat, page: seq<StreamRow>)
    requires Rising(rows) && IsPage(rows, workspace, cursor, limit, page)
    ensures |page| <= |Beyond(rows, workspace, cursor)| && page == Beyond(rows, workspace, cursor)[..|page|]
    ensures |page| < limit ==> page == Beyond(rows, workspace, cursor)
  {
    var b := Beyond(rows, workspace, cursor);
    BeyondIsRest(rows, workspace, cursor);
    hide Beyond, Rising, IsPage, IsRest;
    if page != [] {
      PageIsPrefix(rows, workspace, cursor, limit, page, b);
    }
    if |page| < limit {
      ShortPage(rows, workspace, cursor, limit, page, b);
    }
  }

  lemma PageHolds(rows: seq<StreamRow>, workspace: string, cursor: nat, limit: nat, page: seq<StreamRow>,
                  b: seq<StreamRow>, k: nat, r: StreamRow)
    requires IsPage(rows, workspace, cursor, limit, page) && IsRest(rows, workspace, cursor, b) && page != []
    requires k < |b| && b[k] == page[|page| - 1]
    ensures r in page <==> r in b[..k + 1]
  {
    if r in page {
      var j :| 0 <= j < |page| && page[j] == r;
      assert r in b;
      var l :| 0 <= l < |b| && b[l] == r;
      assert b[..k + 1][l] == r;
    }
    if r in b[..k + 1] {
      var l :| 0 <= l < |b[..k + 1]| && b[..k + 1][l] == r;
      assert b[l] == r && r in b && page[|page| - 1] in page;
    }
  }

  lemma RestIsBehind(rows: seq<StreamRow>, workspace: string)
    requires Rising(rows) && rows != [] && rows[0].entry.workspace == workspace
    ensures forall r :: r in rows[1..] && r.entry.workspace == workspace ==> r.id > rows[0].id
  {
    forall r | r in rows[1..] && r.entry.workspace == workspace
      ensures r.id > rows[0].id
    {
      var k :| 0 <= k < |rows[1..]| && rows[1..][k] == r;
      assert rows[k + 1] == r;
    }
  }

  /** A reader of one workspace beside the writers: its cursor, and what it has been given. */
  datatype Feed = Feed(stream: Stream, cursor: nat, got: seq<StreamRow>)

  datatype Step = Write(a: Act) | Fetch(limit: nat, page: seq<StreamRow>)

  predicate CanStep(f: Feed, workspace: string, s: Step) {
    match s
    case Write(a) => Enabled(f.stream, a)
    case Fetch(limit, page) => IsPage(f.stream.visible, workspace, f.cursor, limit, page)
  }

  /** A fetch hands out its page and moves the cursor to the last row of it. */
  function AfterStep(f: Feed, s: Step): Feed {
    match s
    case Write(a) => f.(stream := Apply(f.stream, a))
    case Fetch(_, page) =>
      f.(cursor := if page == [] then f.cursor else page[|page| - 1].id, got := f.got + page)
  }

  predicate Feeds(f: Feed, workspace: string, steps: seq<Step>, g: Feed)
    decreases |steps|
  {
    if steps == [] then f == g
    else CanStep(f, workspace, steps[0]) && Feeds(AfterStep(f, steps[0]), workspace, steps[1..], g)
  }

  lemma {:induction false} HighWaterBounds(rows: seq<StreamRow>, workspace: string)
    ensures forall r :: r in rows && r.entry.workspace == workspace ==> r.id <= HighWater(rows, workspace)
    ensures HighWater(rows, workspace) != 0
            ==> exists r :: r in rows && r.entry.workspace == workspace && r.id == HighWater(rows, workspace)
  {
    if rows != [] {
      var before := rows[..|rows| - 1];
      HighWaterBounds(before, workspace);
      assert rows == before + [rows[|rows| - 1]];
    }
  }

  /** What the reader still has to get, from the cursor `start` it began with. */
  predicate FeedInv(f: Feed, workspace: string, start: nat) {
    && Inv(f.stream)
    && start <= HighWater(f.stream.visible, workspace) && f.cursor <= HighWater(f.stream.visible, workspace)
    && Beyond(f.stream.visible, workspace, start) == f.got + Beyond(f.stream.visible, workspace, f.cursor)
  }

  lemma MoreRows(rows: seq<StreamRow>, more: seq<StreamRow>, workspace: string, c: nat, d: nat)
    requires Behind(rows, more) && (forall r :: r in more ==> 0 < r.id)
    requires c <= HighWater(rows, workspace) && d <= HighWater(rows, workspace)
    ensures Beyond(more, workspace, c) == Beyond(more, workspace, d)
    ensures HighWater(rows, workspace) <= HighWater(rows + more, workspace)
  {
    HighWaterBounds(rows, workspace);
    HighWaterBounds(rows + more, workspace);
    forall r | r in more && r.entry.workspace == workspace
      ensures r.id > HighWater(rows, workspace)
    {
    }
    BeyondAll(more, workspace, c, d);
  }

  /** What the reader has and what it lacks, when more rows become visible. */
  lemma LeftToRead(rows: seq<StreamRow>, more: seq<StreamRow>, got: seq<StreamRow>, workspace: string, start: nat,
                   cursor: nat)
    requires Behind(rows, more) && (forall r :: r in more ==> 0 < r.id)
    requires start <= HighWater(rows, workspace) && cursor <= HighWater(rows, workspace)
    requires Beyond(rows, workspace, start) == got + Beyond(rows, workspace, cursor)
    ensures Beyond(rows + more, workspace, start) == got + Beyond(rows + more, workspace, cursor)
  {
    hide Behind, HighWater, Beyond;
    MoreRows(rows, more, workspace, start, cursor);
    BeyondJoins(rows, more, workspace, start);
    BeyondJoins(rows, more, workspace, cursor);
  }

  /** The rows that a write makes visible. */
  lemma WrittenRows(x: Stream, a: Act) returns (more: seq<StreamRow>)
    requires Inv(x) && Enabled(x, a)
    ensures Inv(Apply(x, a)) && Apply(x, a).visible == x.visible + more
    ensures Behind(x.visible, more) && forall r :: r in more ==> 0 < r.id
  {
    hide Behind, Apply, Enabled, Rising, Unique, PendingInv, Disjoint;
    ActKeepsInv(x, a);
    ActAddsBehind(x, a);
    more := Apply(x, a).visible[|x.visible|..];
    assert forall r :: r in more ==> r in Apply(x, a).visible;
  }

  lemma WriteKeepsFeed(f: Feed, workspace: string, start: nat, a: Act)
    requires FeedInv(f, workspace, start) && Enabled(f.stream, a)
    ensures FeedInv(AfterStep(f, Write(a)), workspace, start)
  {
    hide Inv, Apply, Enabled, Behind, HighWater, Beyond;
    var more := WrittenRows(f.stream, a);
    MoreRows(f.stream.visible, more, workspace, start, f.cursor);
    LeftToRead(f.stream.visible, more, f.got, workspace, start, f.cursor);
  }

  /** The page moves from what the reader lacks to what it has. */
  lemma PageMoves(rows: seq<StreamRow>, workspace: string, cursor: nat, limit: nat, page: seq<StreamRow>)
    requires Rising(rows) && IsPage(rows, workspace, cursor, limit, page)
    ensures var next := if page == [] then cursor else page[|page| - 1].id;
            && Beyond(rows, workspace, cursor) == page + Beyond(rows, workspace, next)
            && (|page| < limit ==> Beyond(rows, workspace, next) == [])
  {
    hide IsPage, Beyond, Rising;
    PageIsNext(rows, workspace, cursor, limit, page);
    var b := Beyond(rows, workspace, cursor);
    assert b == b[..|page|] + b[|page|..];
    if page != [] {
      BeyondAdvances(rows, workspace, cursor, |page|);
      assert b[|page| - 1] == page[|page| - 1];
    } else {
      assert b[|page|..] == b;
    }
  }

  lemma CursorStaysLow(rows: seq<StreamRow>, workspace: string, cursor: nat, limit: nat, page: seq<StreamRow>)
    requires IsPage(rows, workspace, cursor, limit, page) && page != []
    ensures page[|page| - 1].id <= HighWater(rows, workspace)
  {
    HighWaterBounds(rows, workspace);
    assert page[|page| - 1] in page;
  }

  lemma FetchKeepsFeed(f: Feed, workspace: string, start: nat, limit: nat, page: seq<StreamRow>)
    requires FeedInv(f, workspace, start) && IsPage(f.stream.visible, workspace, f.cursor, limit, page)
    ensures FeedInv(AfterStep(f, Fetch(limit, page)), workspace, start)
    ensures |page| < limit
            ==> var g := AfterStep(f, Fetch(limit, page)); Beyond(g.stream.visible, workspace, start) == g.got
  {
    var rows := f.stream.visible;
    assert Rising(rows);
    hide Inv, IsPage, HighWater, Beyond, Rising;
    PageMoves(rows, workspace, f.cursor, limit, page);
    if page != [] {
      CursorStaysLow(rows, workspace, f.cursor, limit, page);
    }
    var next := AfterStep(f, Fetch(limit, page)).cursor;
    Regrouped(f.got, page, Beyond(rows, workspace, next));
  }

  lemma Regrouped(got: seq<StreamRow>, page: seq<StreamRow>, rest: seq<StreamRow>)
    ensures got + (page + rest) == (got + page) + rest
    ensures rest == [] ==> (got + page) + rest == got + page
  {
  }

  lemma {:induction false} FeedsKeepInv(f: Feed, workspace: string, start: nat, steps: seq<Step>, g: Feed)
    requires FeedInv(f, workspace, start) && Feeds(f, workspace, steps, g)
    ensures FeedInv(g, workspace, start)
    decreases |steps|
  {
    hide FeedInv, AfterStep, IsPage, Enabled;
    if steps != [] {
      match steps[0] {
        case Write(a) => WriteKeepsFeed(f, workspace, start, a);
        case Fetch(limit, page) => FetchKeepsFeed(f, workspace, start, limit, page);
      }
      FeedsKeepInv(AfterStep(f, steps[0]), workspace, start, steps[1..], g);
    }
  }

  /** A reader that begins at any cursor up to the workspace's high water, in any reachable stream, and
      goes on beside the writers: what it has been given, followed by what is behind its cursor, is
      exactly the workspace's rows behind the first cursor, each once, in the order of their commits. */
  lemma ReaderMissesNothing(acts: seq<Act>, x: Stream, workspace: string, start: nat, steps: seq<Step>, g: Feed)
    requires Reaches(NO_ROWS, acts, x) && start <= HighWater(x.visible, workspace)
    requires Feeds(Feed(x, start, []), workspace, steps, g)
    ensures Beyond(g.stream.visible, workspace, start) == g.got + Beyond(g.stream.visible, workspace, g.cursor)
    ensures Ascending(g.got)
  {
    hide Feeds, Reaches, HighWater, Beyond, Inv;
    FeedBegins(acts, x, workspace, start);
    FeedsKeepInv(Feed(x, start, []), workspace, start, steps, g);
    GotInOrder(g, workspace, start);
  }

  lemma FeedBegins(acts: seq<Act>, x: Stream, workspace: string, start: nat)
    requires Reaches(NO_ROWS, acts, x) && start <= HighWater(x.visible, workspace)
    ensures FeedInv(Feed(x, start, []), workspace, start)
  {
    hide Reaches, HighWater, Beyond, Rising, Unique, PendingInv, Behind;
    NothingYet();
    RunsAddBehind(NO_ROWS, acts, x);
    assert [] + Beyond(x.visible, workspace, start) == Beyond(x.visible, workspace, start);
  }

  lemma NothingYet()
    ensures Inv(NO_ROWS)
  {
  }

  lemma GotInOrder(g: Feed, workspace: string, start: nat)
    requires FeedInv(g, workspace, start)
    ensures Ascending(g.got)
  {
    assert Rising(g.stream.visible);
    hide Inv, Rising, HighWater, Beyond;
    BeyondRises(g.stream.visible, workspace, start);
    PrefixRises(g.got, Beyond(g.stream.visible, workspace, g.cursor));
  }

  lemma PrefixRises(a: seq<StreamRow>, b: seq<StreamRow>)
    requires Ascending(a + b)
    ensures Ascending(a)
  {
    assert forall k :: 0 <= k < |a| ==> (a + b)[k] == a[k];
  }

  /** A page shorter than its limit has brought the reader up to date. */
  lemma ShortPageCatchesUp(acts: seq<Act>, x: Stream, workspace: string, start: nat, steps: seq<Step>, g: Feed,
                           limit: nat, page: seq<StreamRow>)
    requires Reaches(NO_ROWS, acts, x) && start <= HighWater(x.visible, workspace)
    requires Feeds(Feed(x, start, []), workspace, steps, g)
    requires IsPage(g.stream.visible, workspace, g.cursor, limit, page) && |page| < limit
    ensures g.got + page == Beyond(g.stream.visible, workspace, start)
  {
    hide FeedInv, Feeds, Reaches, IsPage;
    FeedBegins(acts, x, workspace, start);
    FeedsKeepInv(Feed(x, start, []), workspace, start, steps, g);
    FetchKeepsFeed(g, workspace, start, limit, page);
  }
}
