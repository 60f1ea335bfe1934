/** Ordered, exactly-once application of events by a consumer
    (infrastructure/db/projections/postgres.py): the serial processor, the tables it keeps, and what
    holds of them after any sequence of deliveries. */
module EventProjection {
  import opened CheckpointModel

  datatype Event = Event(
    id: string,
    workspace: string,
    aggregateType: string,
    aggregateID: string,
    revision: int,
    schemaVersion: int,
    recoveryEpoch: Option<int>,
    safe: bool)  // passes the payload check of the operation stream

  datatype Status = Applied | OutOfOrder | GapBlocked

  /** A row of cp_event_checkpoints; unique by consumer and event. */
  datatype Row = Row(consumer: string, event: Event, current: Option<int>, status: Status)

  datatype StreamEntry = StreamEntry(workspace: string, resourceType: string, resourceID: string, revision: int)

  datatype Reason = UnsupportedSchema | StaleRecoveryEpoch

  /** A row of cp_event_quarantine; unique by consumer and event. */
  datatype Quarantine = Quarantine(consumer: string, eventID: string, reason: Reason)

  datatype Tables = Tables(checkpoints: seq<Row>, stream: seq<StreamEntry>, quarantine: seq<Quarantine>)

  datatype Verdict = VerdictApplied | VerdictOutOfOrder | VerdictGapBlocked | Deduplicated | Quarantined | Raised

  datatype Delivery = Delivery(event: Event, consumer: string, epoch: Option<int>)

  // ----- queries -----

  predicate HasRow(rows: seq<Row>, consumer: string, eventID: string) {
    exists i :: 0 <= i < |rows| && rows[i].consumer == consumer && rows[i].event.id == eventID
  }

  predicate IsQuarantined(qs: seq<Quarantine>, consumer: string, eventID: string) {
    exists i :: 0 <= i < |qs| && qs[i].consumer == consumer && qs[i].eventID == eventID
  }

  predicate AppliedFor(row: Row, consumer: string, aggregateID: string) {
    row.status.Applied? && row.consumer == consumer && row.event.aggregateID == aggregateID
  }

  function Larger(a: Option<int>, b: Option<int>): Option<int> {
    if a.None? then b else if b.None? || b.value <= a.value then a else b
  }

  /** SELECT max(current_applied_revision) ... AND status='APPLIED'. */
  function CurrentRevision(rows: seq<Row>, consumer: string, aggregateID: string): Option<int> {
    if rows == [] then None
    else
      var last := rows[|rows| - 1];
      var before := CurrentRevision(rows[..|rows| - 1], consumer, aggregateID);
      if AppliedFor(last, consumer, aggregateID) then Larger(before, last.current) else before
  }

  // ----- the processor -----

  predicate Stale(d: Delivery) {
    d.epoch.Some? && d.event.recoveryEpoch.Some? && d.event.recoveryEpoch.value < d.epoch.value
  }

  function WithQuarantine(t: Tables, d: Delivery, reason: Reason): Tables {
    if IsQuarantined(t.quarantine, d.consumer, d.event.id) then t
    else t.(quarantine := t.quarantine + [Quarantine(d.consumer, d.event.id, reason)])
  }

  function WithRow(t: Tables, d: Delivery, status: Status, current: Option<int>): Tables {
    if HasRow(t.checkpoints, d.consumer, d.event.id) then t
    else t.(checkpoints := t.checkpoints + [Row(d.consumer, d.event, current, status)])
  }

  function EntryOf(e: Event): StreamEntry {
    StreamEntry(e.workspace, e.aggregateType, e.aggregateID, e.revision)
  }

  datatype Processed = Processed(tables: Tables, verdict: Verdict)

  /** One delivery, alone. An exception leaves the tables to be rolled back. */
  function Process(t: Tables, d: Delivery): Processed {
    if d.event.schemaVersion != 1 then
      Processed(WithQuarantine(t, d, UnsupportedSchema), Quarantined)
    else if Stale(d) then
      Processed(WithQuarantine(t, d, StaleRecoveryEpoch), Quarantined)
    else if HasRow(t.checkpoints, d.consumer, d.event.id) then
      Processed(t, Deduplicated)
    else
      Decide(t, d, CurrentRevision(t.checkpoints, d.consumer, d.event.aggregateID))
  }

  /** What a new event does when `current` is the highest applied revision. */
  function Decide(t: Tables, d: Delivery, current: Option<int>): Processed {
    if current.Some? && d.event.revision <= current.value then
      Processed(WithRow(t, d, OutOfOrder, current), VerdictOutOfOrder)
    else if current.Some? && d.event.revision > current.value + 1 then
      Processed(WithRow(t, d, GapBlocked, current), VerdictGapBlocked)
    else if !d.event.safe then
      Processed(t, Raised)
    else
      Processed(WithRow(t.(stream := t.stream + [EntryOf(d.event)]), d, Applied, Some(d.event.revision)),
              VerdictApplied)
  }

  /** The processor on a connection, statement by statement. */
  class EventProcessor {
    var tables: Tables

    constructor (tables: Tables)
      ensures this.tables == tables
    {
      this.tables := tables;
    }

    method ProcessEvent(d: Delivery) returns (verdict: Verdict)
      modifies this
      ensures Processed(tables, verdict) == Process(old(tables), d)
    {
      if d.event.schemaVersion != 1 {
        PutInQuarantine(d, UnsupportedSchema);
        return Quarantined;
      }
      if d.epoch.Some? && d.event.recoveryEpoch.Some? && d.event.recoveryEpoch.value < d.epoch.value {
        PutInQuarantine(d, StaleRecoveryEpoch);
        return Quarantined;
      }
      if HasRow(tables.checkpoints, d.consumer, d.event.id) {
        return Deduplicated;
      }
      var current := MaxApplied(d.consumer, d.event.aggregateID);
      if current.Some? && d.event.revision <= current.value {
        PutCheckpoint(d, OutOfOrder, current);
        return VerdictOutOfOrder;
      }
      if current.Some? && d.event.revision > current.value + 1 {
        PutCheckpoint(d, GapBlocked, current);
        return VerdictGapBlocked;
      }
      if !d.event.safe {
        return Raised;
      }
      tables := tables.(stream := tables.stream + [EntryOf(d.event)]);
      PutCheckpoint(d, Applied, Some(d.event.revision));
      return VerdictApplied;
    }

    method PutInQuarantine(d: Delivery, reason: Reason)
      modifies this
      ensures tables == WithQuarantine(old(tables), d, reason)
    {
      if !IsQuarantined(tables.quarantine, d.consumer, d.event.id) {
        tables := tables.(quarantine := tables.quarantine + [Quarantine(d.consumer, d.event.id, reason)]);
      }
    }

    method PutCheckpoint(d: Delivery, status: Status, current: Option<int>)
      modifies this
      ensures tables == WithRow(old(tables), d, status, current)
    {
      if !HasRow(tables.checkpoints, d.consumer, d.event.id) {
        tables := tables.(checkpoints := tables.checkpoints + [Row(d.consumer, d.event, current, status)]);
      }
    }

    method MaxApplied(consumer: string, aggregateID: string) returns (current: Option<int>)
      ensures current == CurrentRevision(tables.checkpoints, consumer, aggregateID)
    {
      current := None;
      var rows := tables.checkpoints;
      for i := 0 to |rows|
        invariant rows == tables.checkpoints
        invariant current == CurrentRevision(rows[..i], consumer, aggregateID)
      {
        assert rows[..i + 1][..i] == rows[..i];
        if AppliedFor(rows[i], consumer, aggregateID) {
          current := Larger(current, rows[i].current);
        }
      }
      assert rows[..|rows|] == rows;
    }
  }

  // ----- invariants -----

  /** The revisions a consumer has applied to an aggregate, in the order it applied them. */
  function AppliedRevisions(rows: seq<Row>, consumer: string, aggregateID: string): seq<int> {
    if rows == [] then []
    else
      var last := rows[|rows| - 1];
      AppliedRevisions(rows[..|rows| - 1], consumer, aggregateID)
      + if AppliedFor(last, consumer, aggregateID) then [last.event.revision] else []
  }

  predicate Consecutive(revs: seq<int>) {
    forall i :: 0 <= i < |revs| ==> revs[i] == revs[0] + i
  }

  /** The stream entries of the applied rows, in order. */
  function AppliedEntries(rows: seq<Row>): seq<StreamEntry> {
    if rows == [] then []
    else
      var last := rows[|rows| - 1];
      AppliedEntries(rows[..|rows| - 1]) + if last.status.Applied? then [EntryOf(last.event)] else []
  }

  predicate UniqueRows(rows: seq<Row>) {
    forall i, j :: 0 <= i < j < |rows| && rows[i].consumer == rows[j].consumer ==> rows[i].event.id != rows[j].event.id
  }

  ghost predicate Ordered(t: Tables) {
    && UniqueRows(t.checkpoints)
    && t.stream == AppliedEntries(t.checkpoints)
    && (forall i :: 0 <= i < |t.checkpoints| && t.checkpoints[i].status.Applied? ==>
          t.checkpoints[i].current == Some(t.checkpoints[i].event.revision))
    && (forall c, a :: Consecutive(AppliedRevisions(t.checkpoints, c, a)))
  }

  /** The maximum the processor queries is the last revision applied. */
  lemma {:induction false} MaxIsLast(rows: seq<Row>, c: string, a: string)
    requires forall i :: 0 <= i < |rows| && rows[i].status.Applied? ==> rows[i].current == Some(rows[i].event.revision)
    requires Consecutive(AppliedRevisions(rows, c, a))
    ensures var revs := AppliedRevisions(rows, c, a);
            CurrentRevision(rows, c, a) == if revs == [] then None else Some(revs[|revs| - 1])
  {
    if rows != [] {
      var before := rows[..|rows| - 1];
      var revs, prior := AppliedRevisions(rows, c, a), AppliedRevisions(before, c, a);
      assert forall i :: 0 <= i < |prior| ==> prior[i] == revs[i];
      MaxIsLast(before, c, a);
    }
  }

  lemma RowKeepsOrder(t: Tables, d: Delivery, status: Status, current: Option<int>, stream: seq<StreamEntry>)
    requires Ordered(t) && !HasRow(t.checkpoints, d.consumer, d.event.id)
    requires stream == t.stream + if status.Applied? then [EntryOf(d.event)] else []
    requires status.Applied? ==>
               && current == Some(d.event.revision)
               && var last := CurrentRevision(t.checkpoints, d.consumer, d.event.aggregateID);
                  last.Some? ==> d.event.revision == last.value + 1
    ensures Ordered(WithRow(t.(stream := stream), d, status, current))
  {
    var row := Row(d.consumer, d.event, current, status);
    var rows := t.checkpoints + [row];
    assert rows[..|rows| - 1] == t.checkpoints;
    forall c, a
      ensures Consecutive(AppliedRevisions(rows, c, a))
    {
      MaxIsLast(t.checkpoints, c, a);
      assert Consecutive(AppliedRevisions(t.checkpoints, c, a));
    }
  }

  /** Every delivery, whatever its verdict, keeps the order. */
  lemma ProcessKeepsOrder(t: Tables, d: Delivery)
    requires Ordered(t)
    ensures Ordered(Process(t, d).tables)
  {
    var out := Process(t, d);
    if out.verdict.VerdictApplied? {
      RowKeepsOrder(t, d, Applied, Some(d.event.revision), t.stream + [EntryOf(d.event)]);
    } else if out.verdict.VerdictOutOfOrder? || out.verdict.VerdictGapBlocked? {
      var current := CurrentRevision(t.checkpoints, d.consumer, d.event.aggregateID);
      assert t.(stream := t.stream + []) == t;
      RowKeepsOrder(t, d, if out.verdict.VerdictOutOfOrder? then OutOfOrder else GapBlocked, current, t.stream + []);
    }
  }

  function ProcessAll(t: Tables, ds: seq<Delivery>): Tables {
    if ds == [] then t else Process(ProcessAll(t, ds[..|ds| - 1]), ds[|ds| - 1]).tables
  }

  const EMPTY := Tables([], [], [])

  /** After any sequence of deliveries, with duplicates, reorderings, gaps and unsupported schemas,
      the revisions a consumer has applied to an aggregate are consecutive from the first, each
      applied once and in order, and the stream holds exactly the applied events. */
  lemma {:induction false} OrderedExactlyOnce(ds: seq<Delivery>)
    ensures Ordered(ProcessAll(EMPTY, ds))
  {
    if ds == [] {
    } else {
      OrderedExactlyOnce(ds[..|ds| - 1]);
      ProcessKeepsOrder(ProcessAll(EMPTY, ds[..|ds| - 1]), ds[|ds| - 1]);
    }
  }

  lemma ProcessOnlyAppends(t: Tables, d: Delivery)
    ensures t.checkpoints <= Process(t, d).tables.checkpoints
    ensures t.stream <= Process(t, d).tables.stream
  {
  }

  lemma {:induction false} ProcessAllOnlyAppends(t: Tables, ds: seq<Delivery>)
    ensures t.checkpoints <= ProcessAll(t, ds).checkpoints
  {
    if ds != [] {
      ProcessAllOnlyAppends(t, ds[..|ds| - 1]);
      ProcessOnlyAppends(ProcessAll(t, ds[..|ds| - 1]), ds[|ds| - 1]);
    }
  }

  lemma {:induction false} ProcessAllKeepsOrder(t: Tables, ds: seq<Delivery>)
    requires Ordered(t)
    ensures Ordered(ProcessAll(t, ds))
  {
    if ds != [] {
      ProcessAllKeepsOrder(t, ds[..|ds| - 1]);
      ProcessKeepsOrder(ProcessAll(t, ds[..|ds| - 1]), ds[|ds| - 1]);
    }
  }

  /** The delivery's schema is supported, its epoch is not stale, its event is safe and new to the
      consumer, and its revision is the next one or the first. */
  predicate Due(t: Tables, d: Delivery) {
    && d.event.schemaVersion == 1 && !Stale(d) && d.event.safe
    && !HasRow(t.checkpoints, d.consumer, d.event.id)
    && var revs := AppliedRevisions(t.checkpoints, d.consumer, d.event.aggregateID);
       revs == [] || d.event.revision == revs[|revs| - 1] + 1
  }

  /** An event is applied exactly by a delivery that is due. */
  lemma AppliedExactly(t: Tables, d: Delivery)
    requires Ordered(t)
    ensures Process(t, d).verdict.VerdictApplied? <==> Due(t, d)
  {
    MaxIsLast(t.checkpoints, d.consumer, d.event.aggregateID);
  }

  /** The event's schema is supported and its epoch is the current one; it is new to the consumer. */
  predicate Arrives(t: Tables, d: Delivery) {
    d.event.schemaVersion == 1 && !Stale(d) && !HasRow(t.checkpoints, d.consumer, d.event.id)
  }

  /** Every verdict exactly: by the event, and by the last revision that the consumer has applied to the
      aggregate. */
  lemma VerdictExactly(t: Tables, d: Delivery)
    requires Ordered(t)
    ensures var revs := AppliedRevisions(t.checkpoints, d.consumer, d.event.aggregateID);
            var verdict := Process(t, d).verdict;
            && (verdict.Quarantined? <==> d.event.schemaVersion != 1 || Stale(d))
            && (verdict.Deduplicated?
                <==> d.event.schemaVersion == 1 && !Stale(d) && HasRow(t.checkpoints, d.consumer, d.event.id))
            && (verdict.VerdictOutOfOrder? <==> Arrives(t, d) && revs != [] && d.event.revision <= revs[|revs| - 1])
            && (verdict.VerdictGapBlocked? <==> Arrives(t, d) && revs != [] && d.event.revision > revs[|revs| - 1] + 1)
            && (verdict.Raised?
                <==> && Arrives(t, d) && !d.event.safe
                     && (revs == [] || d.event.revision == revs[|revs| - 1] + 1))
  {
    MaxIsLast(t.checkpoints, d.consumer, d.event.aggregateID);
  }

  /** What a delivery leaves in the tables, by its verdict: the row of an event that is set aside carries
      the last applied revision, that of an applied one its own; nothing else adds a row or an entry. */
  lemma WrittenExactly(t: Tables, d: Delivery)
    requires Ordered(t)
    ensures var revs := AppliedRevisions(t.checkpoints, d.consumer, d.event.aggregateID);
            var out := Process(t, d);
            match out.verdict
            case VerdictApplied =>
              out.tables == Tables(t.checkpoints + [Row(d.consumer, d.event, Some(d.event.revision), Applied)],
                                   t.stream + [StreamEntry(d.event.workspace, d.event.aggregateType,
                                                           d.event.aggregateID, d.event.revision)], t.quarantine)
            case VerdictOutOfOrder =>
              revs != [] && out.tables == t.(checkpoints :=
                t.checkpoints + [Row(d.consumer, d.event, Some(revs[|revs| - 1]), OutOfOrder)])
            case VerdictGapBlocked =>
              revs != [] && out.tables == t.(checkpoints :=
                t.checkpoints + [Row(d.consumer, d.event, Some(revs[|revs| - 1]), GapBlocked)])
            case Quarantined => out.tables == t.(quarantine := out.tables.quarantine)
            case _ => out.tables == t
  {
    MaxIsLast(t.checkpoints, d.consumer, d.event.aggregateID);
  }

  // ----- quarantine -----

  /** The rows of the quarantine for one consumer and event. */
  function QuarantineOf(q: seq<Quarantine>, consumer: string, eventID: string): seq<Quarantine> {
    if q == [] then []
    else
      var last := q[|q| - 1];
      QuarantineOf(q[..|q| - 1], consumer, eventID)
      + if last.consumer == consumer && last.eventID == eventID then [last] else []
  }

  /** The delivery brings this event, and it is refused: unsupported, or of an older epoch than the
      current one. */
  predicate Refused(d: Delivery, consumer: string, eventID: string) {
    && d.consumer == consumer && d.event.id == eventID
    && (d.event.schemaVersion != 1
        || (d.epoch.Some? && d.event.recoveryEpoch.Some? && d.event.recoveryEpoch.value < d.epoch.value))
  }

  /** The first delivery of the event that is refused, if any is. */
  function FirstRefusal(ds: seq<Delivery>, consumer: string, eventID: string): (k: Option<int>)
    ensures k.Some? ==> 0 <= k.value < |ds| && Refused(ds[k.value], consumer, eventID)
    ensures forall j :: 0 <= j < (if k.Some? then k.value else |ds|) ==> !Refused(ds[j], consumer, eventID)
  {
    if ds == [] then None
    else
      var before := FirstRefusal(ds[..|ds| - 1], consumer, eventID);
      if before.Some? then before
      else if Refused(ds[|ds| - 1], consumer, eventID) then Some(|ds| - 1)
      else None
  }

  lemma {:induction false} QuarantineKnown(q: seq<Quarantine>, consumer: string, eventID: string)
    ensures IsQuarantined(q, consumer, eventID) <==> QuarantineOf(q, consumer, eventID) != []
  {
    if q != [] {
      QuarantineKnown(q[..|q| - 1], consumer, eventID);
    }
  }

  lemma QuarantineGrows(q: seq<Quarantine>, row: Quarantine, consumer: string, eventID: string)
    ensures QuarantineOf(q + [row], consumer, eventID)
            == QuarantineOf(q, consumer, eventID)
               + if row.consumer == consumer && row.eventID == eventID then [row] else []
  {
    assert (q + [row])[..|q|] == q;
  }

  /** One more delivery. */
  lemma QuarantineStep(t: Tables, d: Delivery, consumer: string, eventID: string)
    ensures var before := QuarantineOf(t.quarantine, consumer, eventID);
            QuarantineOf(Process(t, d).tables.quarantine, consumer, eventID)
            == if before == [] && Refused(d, consumer, eventID)
               then [Quarantine(consumer, eventID,
                                if d.event.schemaVersion != 1 then UnsupportedSchema else StaleRecoveryEpoch)]
               else before
  {
    QuarantineKnown(t.quarantine, d.consumer, d.event.id);
    QuarantineGrows(t.quarantine, Quarantine(d.consumer, d.event.id, UnsupportedSchema), consumer, eventID);
    QuarantineGrows(t.quarantine, Quarantine(d.consumer, d.event.id, StaleRecoveryEpoch), consumer, eventID);
    hide CurrentRevision, HasRow, QuarantineOf;
  }

  /** After any deliveries an event that has been refused to a consumer has one row in the quarantine,
      with the reason of its first refusal, and an event that never was has none. */
  lemma {:induction false} QuarantineInTheEnd(ds: seq<Delivery>, consumer: string, eventID: string)
    ensures QuarantineOf(ProcessAll(EMPTY, ds).quarantine, consumer, eventID)
            == match FirstRefusal(ds, consumer, eventID)
               case None => []
               case Some(k) =>
                 [Quarantine(consumer, eventID,
                             if ds[k].event.schemaVersion != 1 then UnsupportedSchema else StaleRecoveryEpoch)]
  {
    hide Process, Refused;
    if ds != [] {
      var before := ds[..|ds| - 1];
      QuarantineInTheEnd(before, consumer, eventID);
      QuarantineStep(ProcessAll(EMPTY, before), ds[|ds| - 1], consumer, eventID);
    }
  }

  predicate AppliedEvent(rows: seq<Row>, consumer: string, eventID: string) {
    exists row :: row in rows && row.consumer == consumer && row.event.id == eventID && row.status.Applied?
  }

  lemma AppliedByProcess(t: Tables, d: Delivery, consumer: string, eventID: string)
    ensures AppliedEvent(Process(t, d).tables.checkpoints, consumer, eventID)
            <==> AppliedEvent(t.checkpoints, consumer, eventID)
                 || (d.consumer == consumer && d.event.id == eventID && Process(t, d).verdict.VerdictApplied?)
  {
    hide CurrentRevision;
    var rows, next := t.checkpoints, Process(t, d).tables.checkpoints;
    if next != rows {
      assert next == rows + [next[|rows|]];
    }
    assert forall row :: row in rows ==> row in next;
  }

  /** The k-th delivery brings the event, and it is due when it arrives. */
  predicate DueAt(ds: seq<Delivery>, k: int, consumer: string, eventID: string) {
    0 <= k < |ds| && ds[k].consumer == consumer && ds[k].event.id == eventID && Due(ProcessAll(EMPTY, ds[..k]), ds[k])
  }

  /** After any deliveries an event has been applied exactly when one of its deliveries was due on
      arrival; only one can be. */
  lemma {:induction false} AppliedInTheEnd(ds: seq<Delivery>, consumer: string, eventID: string)
    ensures AppliedEvent(ProcessAll(EMPTY, ds).checkpoints, consumer, eventID)
            <==> exists k :: DueAt(ds, k, consumer, eventID)
    ensures forall k, l :: DueAt(ds, k, consumer, eventID) && DueAt(ds, l, consumer, eventID) ==> k == l
  {
    hide Due, Process, AppliedRevisions, Ordered;
    if ds != [] {
      var n := |ds| - 1;
      var before, d := ds[..n], ds[n];
      AppliedInTheEnd(before, consumer, eventID);
      OrderedExactlyOnce(before);
      AppliedExactly(ProcessAll(EMPTY, before), d);
      AppliedByProcess(ProcessAll(EMPTY, before), d, consumer, eventID);
      forall k | 0 <= k < n
        ensures DueAt(ds, k, consumer, eventID) <==> DueAt(before, k, consumer, eventID)
      {
        assert ds[..k] == before[..k] && ds[k] == before[k];
      }
      if DueAt(ds, n, consumer, eventID) {
        NoRowWhenDue(ProcessAll(EMPTY, before), d);
      }
      if k :| DueAt(before, k, consumer, eventID) {
        assert DueAt(ds, k, consumer, eventID);
      }
    }
  }

  lemma NoRowWhenDue(t: Tables, d: Delivery)
    requires Due(t, d)
    ensures !AppliedEvent(t.checkpoints, d.consumer, d.event.id)
  {
    hide AppliedRevisions;
    forall row | row in t.checkpoints
      ensures row.consumer == d.consumer ==> row.event.id != d.event.id
    {
      var i :| 0 <= i < |t.checkpoints| && t.checkpoints[i] == row;
    }
  }

  /** An event that was once set aside as out of order or behind a gap is never applied by a
      redelivery, not even after the gap has closed: it stays deduplicated. */
  lemma SetAsideForGood(t: Tables, ds: seq<Delivery>, d: Delivery, i: int)
    requires Ordered(t) && 0 <= i < |t.checkpoints|
    requires t.checkpoints[i].consumer == d.consumer && t.checkpoints[i].event.id == d.event.id
    requires !t.checkpoints[i].status.Applied?
    ensures !Process(ProcessAll(t, ds), d).verdict.VerdictApplied?
    ensures var rows := ProcessAll(t, ds).checkpoints;
            forall j :: 0 <= j < |rows| && rows[j].consumer == d.consumer && rows[j].event.id == d.event.id
                        ==> !rows[j].status.Applied?
  {
    ProcessAllOnlyAppends(t, ds);
    ProcessAllKeepsOrder(t, ds);
    var rows := ProcessAll(t, ds).checkpoints;
    assert rows[i] == t.checkpoints[i];
    assert HasRow(rows, d.consumer, d.event.id);
  }

  lemma RevisionAfterRow(rows: seq<Row>, row: Row, c: string, a: string)
    ensures CurrentRevision(rows + [row], c, a)
            == if AppliedFor(row, c, a) then Larger(CurrentRevision(rows, c, a), row.current)
               else CurrentRevision(rows, c, a)
  {
    assert (rows + [row])[..|rows|] == rows;
  }

  lemma AppliedAfterRow(rows: seq<Row>, row: Row, c: string, a: string)
    ensures AppliedRevisions(rows + [row], c, a)
            == AppliedRevisions(rows, c, a) + if AppliedFor(row, c, a) then [row.event.revision] else []
  {
    assert (rows + [row])[..|rows|] == rows;
  }

  /** The row that an application leaves. */
  function AppliedRowOf(d: Delivery): Row {
    Row(d.consumer, d.event, Some(d.event.revision), Applied)
  }

  /** Three events of one aggregate, of which the last arrives before the second. */
  predicate ArrivesEarly(one: Delivery, three: Delivery, two: Delivery) {
    && (forall d | d in {one, two, three} :: d.event.schemaVersion == 1 && !Stale(d) && d.event.safe)
    && one.consumer == two.consumer == three.consumer
    && one.event.aggregateID == two.event.aggregateID == three.event.aggregateID
    && one.event.id != two.event.id && one.event.id != three.event.id && two.event.id != three.event.id
    && two.event.revision == one.event.revision + 1 && three.event.revision == one.event.revision + 2
  }

  /** The gap closes, and the event that came early stays out. */
  lemma EarlyEventIsLost(one: Delivery, three: Delivery, two: Delivery)
    requires ArrivesEarly(one, three, two)
    ensures var t := ProcessAll(EMPTY, [one, three, two]);
            && AppliedRevisions(t.checkpoints, one.consumer, one.event.aggregateID)
               == [one.event.revision, two.event.revision]
            && Process(t, three) == Processed(t, Deduplicated)
  {
    hide CurrentRevision, ProcessAll;
    var c, a := one.consumer, one.event.aggregateID;
    var aside := Row(c, three.event, Some(one.event.revision), GapBlocked);
    var first := [AppliedRowOf(one)];
    var last := first + [aside] + [AppliedRowOf(two)];
    FirstRows(one, c, a);
    AppliedAfterRow(first, aside, c, a);
    AppliedAfterRow(first + [aside], AppliedRowOf(two), c, a);
    RevisionAfterRow(first, aside, c, a);
    EarlyRows(one, three, two, aside);
    var n, m := one.event.revision, two.event.revision;
    assert [n] + [] + [m] == [n, m];
    assert last[1] == aside;
    assert HasRow(last, c, three.event.id);
  }

  lemma EarlyRows(one: Delivery, three: Delivery, two: Delivery, aside: Row)
    requires ArrivesEarly(one, three, two)
    requires aside == Row(one.consumer, three.event, Some(one.event.revision), GapBlocked)
    ensures ProcessAll(EMPTY, [one, three, two]).checkpoints == [AppliedRowOf(one)] + [aside] + [AppliedRowOf(two)]
  {
    hide CurrentRevision, ProcessAll;
    var c, a := one.consumer, one.event.aggregateID;
    OneMore([], one);
    OneMore([one], three);
    OneMore([one, three], two);
    assert [] + [one] == [one] && [one] + [three] == [one, three] && [one, three] + [two] == [one, three, two];
    FirstRows(one, c, a);
    var first := [AppliedRowOf(one)];
    RevisionAfterRow(first, aside, c, a);
    assert ProcessAll(EMPTY, [one]).checkpoints == [] + first == first;
    assert ProcessAll(EMPTY, [one, three]).checkpoints == first + [aside];
  }

  lemma OneMore(ds: seq<Delivery>, d: Delivery)
    ensures ProcessAll(EMPTY, ds + [d]) == Process(ProcessAll(EMPTY, ds), d).tables
    ensures ProcessAll(EMPTY, []) == EMPTY
  {
    assert (ds + [d])[..|ds|] == ds;
  }

  lemma FirstRows(d: Delivery, c: string, a: string)
    ensures CurrentRevision([], c, a) == None && AppliedRevisions([], c, a) == []
    ensures AppliedFor(AppliedRowOf(d), c, a) ==>
              && CurrentRevision([AppliedRowOf(d)], c, a) == Some(d.event.revision)
              && AppliedRevisions([AppliedRowOf(d)], c, a) == [d.event.revision]
  {
    assert [AppliedRowOf(d)][..0] == [];
  }
}
