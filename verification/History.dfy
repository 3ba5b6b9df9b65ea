/** What the commits on one incident say: snapshots, changes of status, audit rows, closing. */
module History {
  import opened Prelude
  import opened Lifecycle
  import opened Domain
  import opened Outbox
  import opened Machine
  import opened Tables

  /** The change of status a commit announces. */
  function Announced(e: Entry): seq<Change> {
    if e.plan.Some? && e.plan.value.StatusChanged() then [e.plan.value.status.value] else []
  }

  /** What a reader of one event learns. */
  lemma {:induction false} OneEvent(e: Envelope)
    ensures Snapshots([e]) == if e.payload.IsSnapshot() then [e.payload.snapshot] else []
    ensures Listings([e]) == (match e.payload
                              case Created(_) => [[]]
                              case Updated(changed, _) => [changed]
                              case _ => [])
    ensures StatusChanges([e]) == if e.payload.StatusChanged? then [Change(e.payload.from, e.payload.to)] else []
    ensures ClosedEvents([e]) == if e.payload.IncidentClosed? then 1 else 0
  {
    assert [e][..0] == [];
  }

  lemma {:induction false} TwoParts(a: seq<Envelope>, b: seq<Envelope>)
    ensures Snapshots(a + b) == Snapshots(a) + Snapshots(b)
    ensures Listings(a + b) == Listings(a) + Listings(b)
    ensures StatusChanges(a + b) == StatusChanges(a) + StatusChanges(b)
    ensures ClosedEvents(a + b) == ClosedEvents(a) + ClosedEvents(b)
  {
    SnapshotsConcat(a, b);
    ListingsConcat(a, b);
    StatusChangesConcat(a, b);
  }

  /** The payloads of an entry, one by one. */
  lemma {:induction false} EntryPayloads(e: Entry)
    requires EntryOk(e)
    ensures e.events != [] && e.events[0].payload.IsSnapshot()
    ensures Normal(e.events[0].payload.snapshot) == Normal(FromRow(e.row))
    ensures e.events[0].payload.Created? <==> e.plan.None?
    ensures e.plan.Some? ==> e.events[0].payload == Updated(e.plan.value.changed, FromRow(e.row))
    ensures |e.events| == 1 + (if Announced(e) == [] then 0 else if Announced(e)[0].to == Closed then 2 else 1)
    ensures |e.events| > 1 ==>
              e.events[1].payload == StatusChanged(Announced(e)[0].from, Announced(e)[0].to, e.row.id)
    ensures |e.events| > 2 ==> e.events[2].payload == IncidentClosed(e.row.id, e.row.closedAt, Closed)
  {
    hide PlanOk;
    if e.plan.Some? {
      var ps := PatchPayloads(e.plan.value, FromRow(e.row));
      assert |e.events| == |Payloads(e.events)| == |ps|;
      assert forall x :: 0 <= x < |e.events| ==> e.events[x].payload == Payloads(e.events)[x];
    }
  }

  /** One commit contributes one snapshot, at most one change of status, and a closed event exactly on a change to closed. */
  lemma {:induction false} EntryReads(e: Entry)
    requires EntryOk(e)
    ensures e.events != [] && e.events[0].payload.IsSnapshot()
    ensures Snapshots(e.events) == [e.events[0].payload.snapshot]
    ensures Normal(e.events[0].payload.snapshot) == Normal(FromRow(e.row))
    ensures Listings(e.events) == [if e.plan.Some? then e.plan.value.changed else []]
    ensures StatusChanges(e.events) == Announced(e)
    ensures ClosedEvents(e.events) == Closings(Announced(e))
  {
    hide EntryOk, Normal, FromRow, Snapshots, Listings, StatusChanges, ClosedEvents;
    var es := e.events;
    EntryPayloads(e);
    OneEvent(es[0]);
    ClosingsOfOne(e);
    if |es| == 1 {
      assert es == [es[0]];
    } else {
      OneEvent(es[1]);
      TwoParts([es[0]], [es[1]]);
      if |es| == 2 {
        assert es == [es[0]] + [es[1]];
      } else {
        OneEvent(es[2]);
        TwoParts([es[0]] + [es[1]], [es[2]]);
        assert es == [es[0]] + [es[1]] + [es[2]];
      }
    }
  }

  lemma {:induction false} ClosingsOfOne(e: Entry)
    ensures Closings(Announced(e)) == if Announced(e) != [] && Announced(e)[0].to == Closed then 1 else 0
  {
    if Announced(e) != [] {
      assert Announced(e)[..0] == [];
    }
  }

  lemma {:induction false} LogPrefix(i: Uuid, es: seq<Entry>, n: nat)
    requires LogOk(i, es) && 0 < n <= |es|
    ensures LogOk(i, es[..n])
  {
    hide EntryOk, Follows;
  }

  lemma {:induction false} LogLast(i: Uuid, es: seq<Entry>)
    requires LogOk(i, es)
    ensures EntryOk(es[|es| - 1]) && es[|es| - 1].row.id == i
    ensures |es| == 1 <==> es[|es| - 1].plan.None?
    ensures |es| > 1 ==> LogOk(i, es[..|es| - 1]) && Follows(es[|es| - 2].row, es[|es| - 1])
    ensures EventsOf(es) == EventsOf(es[..|es| - 1]) + es[|es| - 1].events
  {
    hide EntryOk, PlanOk, ApplyUpdate;
    if |es| > 1 {
      LogPrefix(i, es, |es| - 1);
      var k := |es| - 1;
      assert Follows(es[k - 1].row, es[k]);
    }
  }

  /** Stored attributes are never null. */
  lemma {:induction false} AttributesStored(i: Uuid, es: seq<Entry>)
    requires es != [] && LogOk(i, es)
    ensures es[|es| - 1].row.attributes.Some?
    ensures Normal(FromRow(es[|es| - 1].row)) == FromRow(es[|es| - 1].row)
  {
    hide LogOk, PlanOk, PatchPayloads, EventsOf;
    LogLast(i, es);
    if |es| == 1 {
      assert FromRow(es[0].row).attributes == es[0].row.attributes;
    } else {
      AttributesStored(i, es[..|es| - 1]);
    }
  }

  /** `snapshots` are the rows of the commits, one each, in order. */
  ghost predicate RowsSeen(es: seq<Entry>, snapshots: seq<Incident>) {
    && |snapshots| == |es|
    && forall k :: 0 <= k < |es| ==> Normal(snapshots[k]) == FromRow(es[k].row)
  }

  lemma {:induction false} RowsSeenGrows(es: seq<Entry>, snapshots: seq<Incident>, e: Entry, snapshot: Incident)
    requires RowsSeen(es, snapshots) && Normal(snapshot) == FromRow(e.row)
    ensures RowsSeen(es + [e], snapshots + [snapshot])
  {
    hide Normal, FromRow;
  }

  /** Each commit's snapshot is the row it wrote. */
  lemma {:induction false} LogSnapshots(i: Uuid, es: seq<Entry>)
    requires es != [] && LogOk(i, es)
    ensures RowsSeen(es, Snapshots(EventsOf(es)))
  {
    hide LogOk, EntryOk, Follows, Normal, FromRow, Snapshots, Listings, EventsOf, StatusChanges, ClosedEvents, RowsSeen;
    LogLast(i, es);
    var before, last := es[..|es| - 1], es[|es| - 1];
    EntryReads(last);
    AttributesStored(i, es);
    if |es| == 1 {
      NoEvents();
      NothingSeen();
      assert before == [];
    } else {
      LogSnapshots(i, before);
    }
    TwoParts(EventsOf(before), last.events);
    RowsSeenGrows(before, Snapshots(EventsOf(before)), last, last.events[0].payload.snapshot);
    assert es == before + [last];
  }

  lemma {:induction false} NothingSeen()
    ensures RowsSeen([], Snapshots([])) && Listings([]) == []
  {
  }

  /** Each commit's changed_fields are those of its plan. */
  lemma {:induction false} LogListings(i: Uuid, es: seq<Entry>)
    requires es != [] && LogOk(i, es)
    ensures |Listings(EventsOf(es))| == |es|
    ensures forall k :: 0 <= k < |es| ==>
              Listings(EventsOf(es))[k] == if es[k].plan.Some? then es[k].plan.value.changed else []
  {
    hide LogOk, EntryOk, Follows, Normal, FromRow, Snapshots, Listings, EventsOf, StatusChanges, ClosedEvents;
    LogLast(i, es);
    var before, last := es[..|es| - 1], es[|es| - 1];
    EntryReads(last);
    if |es| == 1 {
      NoEvents();
      NothingSeen();
      assert before == [];
    } else {
      LogListings(i, before);
    }
    TwoParts(EventsOf(before), last.events);
  }

  /** A commit moves only what its changed_fields list. */
  lemma {:induction false} LogFrames(i: Uuid, es: seq<Entry>, k: nat)
    requires LogOk(i, es) && 0 < k < |es|
    ensures es[k].plan.Some? && Frame(FromRow(es[k - 1].row), FromRow(es[k].row), es[k].plan.value.changed)
  {
    hide LogOk, PlanOk, FromRow, Frame, ApplyUpdate, PatchPayloads, FirstRow;
    LogEntry(i, es, k);
    UpdatesStayInFrame(es[k - 1].row, es[k].plan.value);
  }

  lemma {:induction false} LogEntry(i: Uuid, es: seq<Entry>, k: nat)
    requires LogOk(i, es) && k < |es|
    ensures EntryOk(es[k]) && es[k].row.id == i
    ensures k > 0 ==> Follows(es[k - 1].row, es[k])
    ensures k == 0 <==> es[k].plan.None?
  {
    hide EntryOk, PlanOk, ApplyUpdate;
  }

  /** An incident that was closed once: some commit left it closed. */
  ghost predicate EverClosed(es: seq<Entry>) {
    exists k :: 0 <= k < |es| && es[k].row.status == Closed
  }

  /**
   * closed_at is set exactly when the incident has been closed at least once, and
   * created_at never lies after updated_at.
   */
  lemma {:induction false} LogClosure(i: Uuid, es: seq<Entry>)
    requires es != [] && LogOk(i, es)
    ensures es[|es| - 1].row.closedAt.Some? <==> EverClosed(es)
    ensures es[|es| - 1].row.createdAt <= es[|es| - 1].row.updatedAt
    ensures es[|es| - 1].row.createdAt == es[0].row.createdAt
  {
    hide LogOk, PatchPayloads, EventsOf, FromRow;
    LogLast(i, es);
    var last := es[|es| - 1];
    if |es| == 1 {
      assert EverClosed(es) <==> es[0].row.status == Closed;
    } else {
      var before := es[..|es| - 1];
      LogClosure(i, before);
      EverClosedGrows(before, last);
      assert es == before + [last];
      assert before[|before| - 1] == es[|es| - 2] && before[0] == es[0];
    }
  }

  lemma {:induction false} EverClosedGrows(es: seq<Entry>, e: Entry)
    ensures EverClosed(es + [e]) <==> EverClosed(es) || e.row.status == Closed
  {
    var all := es + [e];
    if EverClosed(es) {
      var k :| 0 <= k < |es| && es[k].row.status == Closed;
      assert all[k].row.status == Closed;
    }
    if e.row.status == Closed {
      assert all[|es|].row.status == Closed;
    }
  }

  /** Once set, closed_at is never null again. */
  lemma {:induction false} ClosedAtStays(i: Uuid, es: seq<Entry>, j: nat, k: nat)
    requires LogOk(i, es) && j <= k < |es| && es[j].row.closedAt.Some?
    ensures es[k].row.closedAt.Some?
  {
    hide EntryOk, PlanOk;
    if j < k {
      ClosedAtStays(i, es, j, k - 1);
      assert Follows(es[k - 1].row, es[k]);
    }
  }

  /** The number of outbox rows a success audit row accounts for. */
  lemma {:induction false} EventsPerAuditRow(e: Entry)
    requires EntryOk(e)
    ensures e.audit.action == StatusChangeAction ==> |e.events| in {2, 3}
    ensures e.audit.action != StatusChangeAction ==> |e.events| == 1
    ensures e.audit.action == CreateAction <==> e.events[0].payload.Created?
    ensures forall x :: 0 <= x < |e.events| ==>
              && e.audit.target == Some(e.events[x].entity)
              && e.audit.actor == e.events[x].actor
              && e.audit.tenant == e.events[x].tenant
              && e.audit.correlation == RecordedCorrelation(e.events[x].correlation)
  {
    hide PlanOk, PatchPayloads;
    EntryPayloads(e);
  }
}
