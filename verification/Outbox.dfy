/** Event envelopes, outbox rows, and the sequences a reader derives from the table and from the bus. */
module Outbox {
  import opened Prelude
  import opened Lifecycle
  import opened Domain
  import opened Auth

  datatype Payload =
    | Created(snapshot: Incident)
    | Updated(changed: seq<Field>, snapshot: Incident)
    | StatusChanged(from: Status, to: Status, incident: Uuid)
    | IncidentClosed(incident: Uuid, closedAt: Option<Time>, finalStatus: Status)
  {
    predicate IsSnapshot() {
      Created? || Updated?
    }
  }

  datatype Envelope = Envelope(
    eventId: Uuid, tenant: Uuid, actor: Principal, entity: Uuid, payload: Payload,
    correlation: Uuid, occurredAt: Time)

  /** The stored payload bytes: an envelope, or bytes that do not decode. */
  datatype Body = WellFormed(env: Envelope) | Malformed

  /** A row of the outbox table; its id is its position and published_at is kept aside. */
  datatype OutboxRow = OutboxRow(eventId: Uuid, tenant: Uuid, createdAt: Time, body: Body) {
    predicate About(i: Uuid) {
      body.WellFormed? && body.env.entity == i
    }
  }

  function EventIds(es: seq<Envelope>): set<Uuid> {
    set e | e in es :: e.eventId
  }

  /** The well-formed committed rows of incident `i`, in table order. */
  function Committed(i: Uuid, rows: seq<OutboxRow>, visible: set<nat>): seq<Envelope> {
    if rows == [] then
      []
    else
      var n := |rows| - 1;
      Committed(i, rows[..n], visible) + if n in visible && rows[n].About(i) then [rows[n].body.env] else []
  }

  /** The first copies of the events of incident `i`, in bus order. */
  function FirstCopies(i: Uuid, bus: seq<Envelope>): seq<Envelope> {
    if bus == [] then
      []
    else
      var n := |bus| - 1;
      FirstCopies(i, bus[..n])
      + if bus[n].entity == i && bus[n].eventId !in EventIds(bus[..n]) then [bus[n]] else []
  }

  /** The snapshots carried by created and updated events. */
  function Snapshots(es: seq<Envelope>): seq<Incident> {
    if es == [] then
      []
    else
      var n := |es| - 1;
      Snapshots(es[..n]) + if es[n].payload.IsSnapshot() then [es[n].payload.snapshot] else []
  }

  /** The changed_fields of the same events; a created event lists none. */
  function Listings(es: seq<Envelope>): seq<seq<Field>> {
    if es == [] then
      []
    else
      var n := |es| - 1;
      Listings(es[..n])
      + match es[n].payload
        case Created(_) => [[]]
        case Updated(changed, _) => [changed]
        case _ => []
  }

  /** The changes carried by status_changed events. */
  function StatusChanges(es: seq<Envelope>): seq<Change> {
    if es == [] then
      []
    else
      var n := |es| - 1;
      StatusChanges(es[..n])
      + if es[n].payload.StatusChanged? then [Change(es[n].payload.from, es[n].payload.to)] else []
  }

  /** The number of closed events. */
  function ClosedEvents(es: seq<Envelope>): nat {
    if es == [] then 0
    else ClosedEvents(es[..|es| - 1]) + if es[|es| - 1].payload.IncidentClosed? then 1 else 0
  }

  /** The number of copies of event `e` on the bus. */
  function Copies(bus: seq<Envelope>, e: Uuid): nat {
    if bus == [] then 0 else Copies(bus[..|bus| - 1], e) + if bus[|bus| - 1].eventId == e then 1 else 0
  }

  /** A reader that drops repeated event ids and keeps the last snapshot of each incident. */
  datatype Projection = Projection(seen: set<Uuid>, table: map<Uuid, Incident>) {
    function Take(e: Envelope): Projection {
      if e.eventId in seen then
        this
      else
        Projection(seen + {e.eventId},
                   if e.payload.IsSnapshot() then table[e.entity := e.payload.snapshot] else table)
    }
  }

  function Project(bus: seq<Envelope>): Projection {
    if bus == [] then Projection({}, map[]) else Project(bus[..|bus| - 1]).Take(bus[|bus| - 1])
  }

  // ---- the table ----

  lemma {:induction false} CommittedGrow(i: Uuid, rows: seq<OutboxRow>, visible: set<nat>, r: OutboxRow)
    ensures Committed(i, rows + [r], visible) ==
            Committed(i, rows, visible) + if |rows| in visible && r.About(i) then [r.body.env] else []
  {
    assert (rows + [r])[..|rows|] == rows;
  }

  /** Only the visibility of the rows of `i` matters to `Committed`. */
  lemma {:induction false} CommittedDepends(i: Uuid, rows: seq<OutboxRow>, v: set<nat>, w: set<nat>)
    requires forall k :: 0 <= k < |rows| && rows[k].About(i) ==> (k in v <==> k in w)
    ensures Committed(i, rows, v) == Committed(i, rows, w)
  {
    if rows != [] {
      CommittedDepends(i, rows[..|rows| - 1], v, w);
    }
  }

  /** The envelopes at the given positions. */
  function EnvelopesAt(rows: seq<OutboxRow>, at: seq<nat>): seq<Envelope>
    requires forall x :: 0 <= x < |at| ==> at[x] < |rows| && rows[at[x]].body.WellFormed?
  {
    seq(|at|, x requires 0 <= x < |at| => rows[at[x]].body.env)
  }

  predicate Increasing(at: seq<nat>) {
    forall x, y :: 0 <= x < y < |at| ==> at[x] < at[y]
  }

  /** Making one row of `i` visible that lies behind its visible ones appends its event. */
  lemma {:induction false} CommitAppendsOne(i: Uuid, rows: seq<OutboxRow>, visible: set<nat>, p: nat)
    requires p < |rows| && rows[p].About(i)
    requires forall k :: k in visible && k < |rows| && rows[k].About(i) ==> k < p
    ensures Committed(i, rows, visible + {p}) == Committed(i, rows, visible) + [rows[p].body.env]
  {
    var n := |rows| - 1;
    if p == n {
      CommittedDepends(i, rows[..n], visible, visible + {p});
    } else {
      CommitAppendsOne(i, rows[..n], visible, p);
      assert n in visible && rows[n].About(i) ==> n < p;
    }
  }

  function Elements(at: seq<nat>): set<nat> {
    set k | k in at
  }

  /** Making rows of `i` visible that all lie behind its visible ones appends their events. */
  lemma {:induction false} CommitAppends(i: Uuid, rows: seq<OutboxRow>, visible: set<nat>, at: seq<nat>)
    requires Increasing(at)
    requires forall x :: 0 <= x < |at| ==> at[x] < |rows| && rows[at[x]].body.WellFormed? && rows[at[x]].About(i)
    requires forall x, k :: 0 <= x < |at| && k in visible && k < |rows| && rows[k].About(i) ==> k < at[x]
    ensures Committed(i, rows, visible + Elements(at)) == Committed(i, rows, visible) + EnvelopesAt(rows, at)
  {
    if at == [] {
      assert visible + Elements(at) == visible;
    } else {
      var n := |at| - 1;
      var less := at[..n];
      CommitAppends(i, rows, visible, less);
      forall k
        ensures k in Elements(at) <==> k in Elements(less) + {at[n]}
      {
        assert k in at <==> k in less || k == at[n];
      }
      assert visible + Elements(at) == visible + Elements(less) + {at[n]};
      CommitAppendsOne(i, rows, visible + Elements(less), at[n]);
      assert EnvelopesAt(rows, at) == EnvelopesAt(rows, less) + [rows[at[n]].body.env];
    }
  }

  /** Cutting the table at row k cuts the committed sequence right before its event. */
  lemma {:induction false} CommittedSplit(i: Uuid, rows: seq<OutboxRow>, visible: set<nat>, k: nat)
    requires k < |rows| && k in visible && rows[k].About(i)
    ensures Committed(i, rows[..k], visible) + [rows[k].body.env] <= Committed(i, rows, visible)
  {
    var n := |rows| - 1;
    if k < n {
      CommittedSplit(i, rows[..n], visible, k);
      assert rows[..n][..k] == rows[..k];
    }
  }

  lemma {:induction false} CommittedFrom(i: Uuid, rows: seq<OutboxRow>, visible: set<nat>, e: Envelope) returns (k: nat)
    requires e in Committed(i, rows, visible)
    ensures k < |rows| && k in visible && rows[k].About(i) && rows[k].body.env == e
  {
    var n := |rows| - 1;
    if n in visible && rows[n].About(i) && rows[n].body.env == e {
      k := n;
    } else {
      k := CommittedFrom(i, rows[..n], visible, e);
    }
  }

  lemma {:induction false} CommittedContains(i: Uuid, rows: seq<OutboxRow>, visible: set<nat>, k: nat)
    requires k < |rows| && k in visible && rows[k].About(i)
    ensures rows[k].body.env in Committed(i, rows, visible)
  {
    CommittedSplit(i, rows, visible, k);
    var c := Committed(i, rows, visible);
    assert c[|Committed(i, rows[..k], visible)|] == rows[k].body.env;
  }

  ghost predicate DistinctEvents(es: seq<Envelope>) {
    forall x, y :: 0 <= x < y < |es| ==> es[x].eventId != es[y].eventId
  }

  ghost predicate DistinctRows(rows: seq<OutboxRow>) {
    && (forall a, b :: 0 <= a < b < |rows| ==> rows[a].eventId != rows[b].eventId)
    && (forall a :: 0 <= a < |rows| && rows[a].body.WellFormed? ==> rows[a].body.env.eventId == rows[a].eventId)
  }

  lemma {:induction false} CommittedDistinct(i: Uuid, rows: seq<OutboxRow>, visible: set<nat>)
    requires DistinctRows(rows)
    ensures DistinctEvents(Committed(i, rows, visible))
  {
    if rows != [] {
      var n := |rows| - 1;
      CommittedDistinct(i, rows[..n], visible);
      var c := Committed(i, rows[..n], visible);
      if n in visible && rows[n].About(i) {
        forall x | 0 <= x < |c|
          ensures c[x].eventId != rows[n].body.env.eventId
        {
          var k := CommittedFrom(i, rows[..n], visible, c[x]);
        }
      }
    }
  }

  // ---- the bus ----

  lemma {:induction false} FirstCopiesGrow(i: Uuid, bus: seq<Envelope>, e: Envelope)
    ensures FirstCopies(i, bus + [e]) ==
            FirstCopies(i, bus) + if e.entity == i && e.eventId !in EventIds(bus) then [e] else []
    ensures EventIds(bus + [e]) == EventIds(bus) + {e.eventId}
  {
    assert (bus + [e])[..|bus|] == bus;
    forall id
      ensures id in EventIds(bus + [e]) <==> id in EventIds(bus) + {e.eventId}
    {
      if id in EventIds(bus) {
        var d :| d in bus && d.eventId == id;
        assert d in bus + [e];
      }
      assert e in bus + [e];
    }
  }

  lemma {:induction false} FirstCopiesAreOnBus(i: Uuid, bus: seq<Envelope>)
    ensures forall e :: e in FirstCopies(i, bus) ==> e in bus && e.entity == i
  {
    if bus != [] {
      FirstCopiesAreOnBus(i, bus[..|bus| - 1]);
    }
  }

  /** Every event of `i` on the bus has a first copy, carrying its id. */
  lemma {:induction false} FirstCopyExists(i: Uuid, bus: seq<Envelope>, e: Envelope) returns (x: nat)
    requires e in bus && e.entity == i
    requires forall d :: d in bus && d.eventId == e.eventId ==> d == e
    ensures x < |FirstCopies(i, bus)| && FirstCopies(i, bus)[x] == e
  {
    var n := |bus| - 1;
    assert forall d :: d in bus[..n] ==> d in bus;
    if e in bus[..n] {
      x := FirstCopyExists(i, bus[..n], e);
    } else {
      assert bus[n] == e;
      x := |FirstCopies(i, bus[..n])|;
    }
  }

  /** First copies only ever grow at the end. */
  lemma {:induction false} FirstCopiesMonotone(i: Uuid, bus: seq<Envelope>, n: nat)
    requires n <= |bus|
    ensures FirstCopies(i, bus[..n]) <= FirstCopies(i, bus)
  {
    if n < |bus| {
      FirstCopiesMonotone(i, bus[..|bus| - 1], n);
      assert bus[..|bus| - 1][..n] == bus[..n];
    } else {
      assert bus[..n] == bus;
    }
  }

  lemma {:induction false} SnapshotsGrow(es: seq<Envelope>, e: Envelope)
    ensures Snapshots(es + [e]) == Snapshots(es) + if e.payload.IsSnapshot() then [e.payload.snapshot] else []
  {
    assert (es + [e])[..|es|] == es;
  }

  lemma {:induction false} SnapshotsConcat(a: seq<Envelope>, b: seq<Envelope>)
    ensures Snapshots(a + b) == Snapshots(a) + Snapshots(b)
  {
    if b == [] {
      assert a + b == a;
    } else {
      SnapshotsConcat(a, b[..|b| - 1]);
      assert (a + b)[..|a + b| - 1] == a + b[..|b| - 1];
    }
  }

  lemma {:induction false} StatusChangesConcat(a: seq<Envelope>, b: seq<Envelope>)
    ensures StatusChanges(a + b) == StatusChanges(a) + StatusChanges(b)
    ensures ClosedEvents(a + b) == ClosedEvents(a) + ClosedEvents(b)
  {
    if b == [] {
      assert a + b == a;
    } else {
      StatusChangesConcat(a, b[..|b| - 1]);
      assert (a + b)[..|a + b| - 1] == a + b[..|b| - 1];
    }
  }

  lemma {:induction false} ListingsConcat(a: seq<Envelope>, b: seq<Envelope>)
    ensures Listings(a + b) == Listings(a) + Listings(b)
  {
    if b == [] {
      assert a + b == a;
    } else {
      ListingsConcat(a, b[..|b| - 1]);
      assert (a + b)[..|a + b| - 1] == a + b[..|b| - 1];
    }
  }

  lemma {:induction false} SnapshotsPrefix(a: seq<Envelope>, b: seq<Envelope>)
    requires a <= b
    ensures Snapshots(a) <= Snapshots(b)
  {
    SnapshotsConcat(a, b[|a|..]);
    assert a + b[|a|..] == b;
  }

  /** `table` holds for `i` the last of `snapshots`, or nothing when there are none. */
  ghost predicate HoldsLast(i: Uuid, table: map<Uuid, Incident>, snapshots: seq<Incident>) {
    && (i in table <==> snapshots != [])
    && (i in table ==> table[i] == snapshots[|snapshots| - 1])
  }

  lemma {:induction false} TakeHoldsLast(i: Uuid, p: Projection, first: seq<Envelope>, e: Envelope)
    requires HoldsLast(i, p.table, Snapshots(first)) && e.eventId !in p.seen
    ensures HoldsLast(i, p.Take(e).table, Snapshots(first + if e.entity == i then [e] else []))
  {
    if e.entity == i {
      SnapshotsGrow(first, e);
      assert Snapshots(first) + [] == Snapshots(first);
    } else {
      assert first + [] == first;
    }
  }

  /** The projection holds, for each incident, the last snapshot among its first copies, and nothing else. */
  lemma {:induction false} ProjectionReadsFirstCopies(i: Uuid, bus: seq<Envelope>)
    ensures Project(bus).seen == EventIds(bus)
    ensures HoldsLast(i, Project(bus).table, Snapshots(FirstCopies(i, bus)))
  {
    if bus != [] {
      var n := |bus| - 1;
      ProjectionReadsFirstCopies(i, bus[..n]);
      assert bus == bus[..n] + [bus[n]];
      FirstCopiesGrow(i, bus[..n], bus[n]);
      if bus[n].eventId in EventIds(bus[..n]) {
        assert FirstCopies(i, bus[..n]) + [] == FirstCopies(i, bus[..n]);
      } else {
        TakeHoldsLast(i, Project(bus[..n]), FirstCopies(i, bus[..n]), bus[n]);
      }
    }
  }

  lemma {:induction false} CopiesGrow(bus: seq<Envelope>, d: Envelope, e: Uuid)
    ensures Copies(bus + [d], e) == Copies(bus, e) + if d.eventId == e then 1 else 0
  {
    assert (bus + [d])[..|bus|] == bus;
  }

  lemma {:induction false} CopiesPositive(bus: seq<Envelope>, e: Uuid)
    ensures Copies(bus, e) > 0 <==> e in EventIds(bus)
  {
    if bus != [] {
      var n := |bus| - 1;
      CopiesPositive(bus[..n], e);
      assert bus == bus[..n] + [bus[n]];
      FirstCopiesGrow(0, bus[..n], bus[n]);
    }
  }
}
