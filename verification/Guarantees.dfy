/**
 * The guarantees of the outbox, for every run of the step machine: any number of
 * overlapping transactions, any pattern of publish and mark failures, restarts,
 * rollbacks and malformed rows.
 */
module Guarantees {
  import opened Prelude
  import opened Lifecycle
  import opened Domain
  import opened Outbox
  import opened Machine
  import opened Tables
  import opened Delivery
  import opened Conservation
  import opened History

  ghost predicate Sound(s: Sys) {
    TablesOk(s) && DeliveryOk(s) && CountsOk(s)
  }

  /** Every state a run reaches from a sound state is sound. */
  lemma {:induction false} RunsStaySound(s: Sys, acts: seq<Action>)
    requires Sound(s) && Exec(s, acts).Some?
    ensures Sound(Exec(s, acts).value)
  {
    hide TablesOk, DeliveryOk, CountsOk, Enabled, Apply;
    if acts != [] {
      var n := |acts| - 1;
      RunsStaySound(s, acts[..n]);
      var t := Exec(s, acts[..n]).value;
      StepKeepsTables(t, acts[n]);
      StepKeepsDelivery(t, acts[n]);
      StepKeepsCounts(t, acts[n]);
    }
  }

  lemma {:induction false} InitIsSound()
    ensures Sound(Init()) && ExactOk(Init())
  {
    hide OutboxOk, OpensOk, PlannedOk, HistoryOk, RowsFromThePast;
    InitKeepsTables();
    forall i: Uuid
      ensures FirstCopies(i, []) == []
    {
    }
  }

  lemma {:induction false} ReachableIsSound(acts: seq<Action>)
    requires Exec(Init(), acts).Some?
    ensures Sound(Exec(Init(), acts).value)
  {
    hide Sound, Init;
    InitIsSound();
    RunsStaySound(Init(), acts);
  }

  /** Some run from the empty database ends here. */
  ghost predicate Reachable(s: Sys) {
    exists acts: seq<Action> :: Exec(Init(), acts) == Some(s)
  }

  lemma {:induction false} ReachableStates(s: Sys)
    requires Reachable(s)
    ensures Sound(s)
  {
    hide Sound, Exec, Init;
    var acts: seq<Action> :| Exec(Init(), acts) == Some(s);
    ReachableIsSound(acts);
  }

  // ---- no loss, no phantoms, order ----

  /**
   * Each row marked published is on the bus; each message is the envelope of a
   * committed row; so each committed well-formed row is still unpublished or on the bus.
   */
  lemma {:induction false} NoLossNoPhantoms(acts: seq<Action>)
    requires Exec(Init(), acts).Some?
    ensures
      var s := Exec(Init(), acts).value;
      && (forall k :: k in s.published ==>
            k in s.visible && k < |s.outbox| && s.outbox[k].body.WellFormed? && s.outbox[k].body.env in s.bus)
      && (forall e :: e in s.bus ==>
            exists k: nat :: k in s.visible && k < |s.outbox| && s.outbox[k].body == WellFormed(e))
  {
    hide TablesOk, CountsOk, BatchOk, OrderOk, PrefixOk, Exec, Init;
    var s := Exec(Init(), acts).value;
    ReachableIsSound(acts);
    RowsAreDistinct(s);
    forall k | k in s.published
      ensures s.outbox[k].body.env in s.bus
    {
      SentMeansOnBus(s, k);
    }
    forall e | e in s.bus
      ensures exists k: nat :: k in s.visible && k < |s.outbox| && s.outbox[k].body == WellFormed(e)
    {
      var k: nat :| Holds(s.outbox, s.visible, k, e);
    }
  }

  lemma {:induction false} RowsAreDistinct(s: Sys)
    requires TablesOk(s)
    ensures DistinctRows(s.outbox)
  {
    hide OpensOk, PlannedOk, HistoryOk, RowsFromThePast, DistinctRows, SameEntity;
  }

  lemma {:induction false} SentMeansOnBus(s: Sys, k: nat)
    requires DistinctRows(s.outbox) && BusOk(s.outbox, s.visible, s.bus)
    requires k < |s.outbox| && s.outbox[k].body.WellFormed? && Sent(s.outbox, s.bus, k)
    ensures s.outbox[k].body.env in s.bus
  {
    hide DistinctRows, BusOk;
    var d :| d in s.bus && d.eventId == s.outbox[k].eventId;
    MessageOfRow(s.outbox, s.visible, s.bus, k, d);
  }

  /**
   * For each incident the first copies of its events on the bus are a prefix of its
   * committed rows, and the committed rows are the commits' events in commit order.
   */
  lemma {:induction false} OrderPerIncident(acts: seq<Action>, i: Uuid)
    requires Exec(Init(), acts).Some?
    ensures
      var s := Exec(Init(), acts).value;
      && FirstCopies(i, s.bus) <= Committed(i, s.outbox, s.visible)
      && Committed(i, s.outbox, s.visible) == EventsOf(if i in s.log then s.log[i] else [])
  {
    hide OutboxOk, OpensOk, PlannedOk, RowsFromThePast, CountsOk, MarkedOk, BusOk, BatchOk, OrderOk, LogOk,
         Exec, Init, FirstCopies, Committed;
    ReachableIsSound(acts);
    NoEvents();
  }

  // ---- replay and projection ----

  ghost predicate SnapshotsAreRows(s: Sys, i: Uuid) {
    if i in s.log then
      && s.log[i] != [] && i in s.incidents && s.incidents[i] == s.log[i][|s.log[i]| - 1].row
      && RowsSeen(s.log[i], Snapshots(Committed(i, s.outbox, s.visible)))
    else
      i !in s.incidents && Committed(i, s.outbox, s.visible) == []
  }

  lemma {:induction false} SoundSnapshots(s: Sys, i: Uuid)
    requires TablesOk(s)
    ensures SnapshotsAreRows(s, i)
  {
    hide OutboxOk, OpensOk, PlannedOk, RowsFromThePast, LogOk, RowsSeen, Snapshots, Committed, EventsOf;
    if i in s.log {
      IncidentInHistory(s, i);
      NonEmptyLog(i, s.log[i]);
      LogSnapshots(i, s.log[i]);
    }
  }

  /** Replaying an incident's committed rows rebuilds it: its last snapshot is its row, up to nil attributes. */
  lemma {:induction false} ReplayRebuildsTable(acts: seq<Action>, i: Uuid)
    requires Exec(Init(), acts).Some?
    ensures
      var s := Exec(Init(), acts).value;
      var snapshots := Snapshots(Committed(i, s.outbox, s.visible));
      && (i in s.incidents <==> snapshots != [])
      && (i in s.incidents ==> Normal(snapshots[|snapshots| - 1]) == FromRow(s.incidents[i]))
  {
    hide TablesOk, DeliveryOk, CountsOk, Exec, Init, Committed, Normal, FromRow;
    ReachableIsSound(acts);
    SoundSnapshots(Exec(Init(), acts).value, i);
  }

  /** How many of the commits on `i` the projection has seen. */
  function Seen(i: Uuid, bus: seq<Envelope>): nat {
    |Snapshots(FirstCopies(i, bus))|
  }

  lemma {:induction false} ProjectionOfSound(s: Sys, i: Uuid)
    requires TablesOk(s) && PrefixOk(s.outbox, s.visible, s.bus)
    ensures
      var table := Project(s.bus).table;
      && (i in table <==> Seen(i, s.bus) > 0)
      && (i in table ==>
            && i in s.log && Seen(i, s.bus) <= |s.log[i]|
            && Normal(table[i]) == FromRow(s.log[i][Seen(i, s.bus) - 1].row))
  {
    hide TablesOk, Committed, FirstCopies, Project, Normal, FromRow;
    SoundSnapshots(s, i);
    ProjectionReadsFirstCopies(i, s.bus);
    assert FirstCopies(i, s.bus) <= Committed(i, s.outbox, s.visible);
    SnapshotsPrefix(FirstCopies(i, s.bus), Committed(i, s.outbox, s.visible));
    assert Snapshots([]) == [];
  }

  /** The deduplicating reader always holds, for each incident, the row some past commit left. */
  lemma {:induction false} ProjectionHoldsPastRows(acts: seq<Action>, i: Uuid) returns (n: nat)
    requires Exec(Init(), acts).Some?
    requires i in Project(Exec(Init(), acts).value.bus).table
    ensures n <= |acts| && Exec(Init(), acts[..n]).Some?
    ensures i in Exec(Init(), acts[..n]).value.incidents
    ensures Normal(Project(Exec(Init(), acts).value.bus).table[i]) ==
            FromRow(Exec(Init(), acts[..n]).value.incidents[i])
  {
    hide TablesOk, CountsOk, MarkedOk, BusOk, BatchOk, OrderOk, PrefixOk, Exec, Init, Project, Normal, FromRow, Seen;
    var s := Exec(Init(), acts).value;
    ReachableIsSound(acts);
    ProjectionOfSound(s, i);
    n := CommitTime(acts, i, Seen(i, s.bus) - 1);
  }

  /** The k-th logged row of an incident was its row at some moment of the run. */
  lemma {:induction false} CommitTime(acts: seq<Action>, i: Uuid, k: nat) returns (n: nat)
    requires Exec(Init(), acts).Some?
    requires i in Exec(Init(), acts).value.log && k < |Exec(Init(), acts).value.log[i]|
    ensures n <= |acts| && Exec(Init(), acts[..n]).Some?
    ensures i in Exec(Init(), acts[..n]).value.incidents
    ensures Exec(Init(), acts[..n]).value.incidents[i] == Exec(Init(), acts).value.log[i][k].row
  {
    hide TablesOk, DeliveryOk, CountsOk, Enabled, Apply, RowsSeen;
    var s := Exec(Init(), acts).value;
    ReachableIsSound(acts);
    SoundSnapshots(s, i);
    if k == |s.log[i]| - 1 {
      n := |acts|;
      assert acts[..n] == acts;
    } else {
      var m := |acts| - 1;
      var t := Exec(Init(), acts[..m]).value;
      LogStep(t, acts[m], i);
      n := CommitTime(acts[..m], i, k);
      assert acts[..m][..n] == acts[..n];
    }
  }

  /** A step adds at most one entry to the history of an incident, at its end. */
  lemma {:induction false} LogStep(s: Sys, a: Action, i: Uuid)
    requires Enabled(s, a)
    ensures
      var before := if i in s.log then s.log[i] else [];
      var s' := Apply(s, a);
      var after := if i in s'.log then s'.log[i] else [];
      && before <= after && |after| <= |before| + 1
      && s.bus <= s'.bus
  {
    hide IsFetch, UniqueExternal, Writes, RowFor, PreparedCreate, LockedBy, AuditFor, PatchTxFor, ValidCreate;
  }

  /** Histories and the bus only grow along a run. */
  lemma {:induction false} RunsGrow(s: Sys, acts: seq<Action>, n: nat, i: Uuid)
    requires Exec(s, acts).Some? && n <= |acts|
    ensures Exec(s, acts[..n]).Some?
    ensures
      var t, u := Exec(s, acts[..n]).value, Exec(s, acts).value;
      && t.bus <= u.bus
      && (if i in t.log then t.log[i] else []) <= (if i in u.log then u.log[i] else [])
  {
    hide Enabled, Apply;
    ExecPrefix(s, acts, n);
    if n < |acts| {
      var m := |acts| - 1;
      RunsGrow(s, acts[..m], n, i);
      assert acts[..m][..n] == acts[..n];
      LogStep(Exec(s, acts[..m]).value, acts[m], i);
    } else {
      assert acts[..n] == acts;
    }
  }

  /** The reader never moves backwards: the commit it has reached is at least as late at any later moment. */
  lemma {:induction false} ProjectionMovesForward(acts: seq<Action>, n: nat, i: Uuid)
    requires Exec(Init(), acts).Some? && n <= |acts|
    ensures Exec(Init(), acts[..n]).Some?
    ensures
      var t, u := Exec(Init(), acts[..n]).value, Exec(Init(), acts).value;
      && Seen(i, t.bus) <= Seen(i, u.bus)
      && (i in Project(t.bus).table ==>
            && i in Project(u.bus).table && i in t.log && i in u.log
            && 0 < Seen(i, t.bus) <= |t.log[i]| && Seen(i, u.bus) <= |u.log[i]| && t.log[i] <= u.log[i]
            && Normal(Project(t.bus).table[i]) == FromRow(u.log[i][Seen(i, t.bus) - 1].row)
            && Normal(Project(u.bus).table[i]) == FromRow(u.log[i][Seen(i, u.bus) - 1].row))
  {
    hide TablesOk, CountsOk, MarkedOk, BusOk, BatchOk, OrderOk, PrefixOk, Exec, Init, Project, Normal, FromRow,
         FirstCopies, Snapshots;
    RunsGrow(Init(), acts, n, i);
    var t, u := Exec(Init(), acts[..n]).value, Exec(Init(), acts).value;
    ReachableIsSound(acts);
    ReachableIsSound(acts[..n]);
    ProjectionOfSound(t, i);
    ProjectionOfSound(u, i);
    assert u.bus[..|t.bus|] == t.bus;
    FirstCopiesMonotone(i, u.bus, |t.bus|);
    SnapshotsPrefix(FirstCopies(i, t.bus), FirstCopies(i, u.bus));
  }

  /** Every committed well-formed row has been marked. */
  ghost predicate Drained(s: Sys) {
    forall k :: k in s.visible && k < |s.outbox| && s.outbox[k].body.WellFormed? ==> k in s.published
  }

  /** When the rows of an incident are all on the bus, its first copies are all of its events. */
  lemma {:induction false} AllSent(s: Sys, i: Uuid)
    requires TablesOk(s) && DeliveryOk(s) && Drained(s)
    ensures FirstCopies(i, s.bus) == Committed(i, s.outbox, s.visible)
  {
    hide TablesOk, BatchOk, OrderOk, BusOk, Committed, FirstCopies, EventIds, DistinctRows;
    var first, all := FirstCopies(i, s.bus), Committed(i, s.outbox, s.visible);
    RowsAreDistinct(s);
    CommittedDistinct(i, s.outbox, s.visible);
    assert first <= all;
    if |first| < |all| {
      var e := all[|first|];
      assert forall x :: 0 <= x < |first| ==> first[x] == all[x] && all[x] != e;
      var k := CommittedFrom(i, s.outbox, s.visible, e);
      SentMeansOnBus(s, k);
      forall d | d in s.bus && d.eventId == e.eventId
        ensures d == e
      {
        RowIds(s.outbox);
        MessageOfRow(s.outbox, s.visible, s.bus, k, d);
      }
      var x := FirstCopyExists(i, s.bus, e);
      assert false;
    }
  }

  /** Once the outbox is drained the reader's table is the incident table, up to nil attributes. */
  lemma {:induction false} DrainedProjectionIsTable(acts: seq<Action>, i: Uuid)
    requires Exec(Init(), acts).Some? && Drained(Exec(Init(), acts).value)
    ensures
      var s := Exec(Init(), acts).value;
      var table := Project(s.bus).table;
      && (i in table <==> i in s.incidents)
      && (i in table ==> Normal(table[i]) == FromRow(s.incidents[i]))
  {
    hide TablesOk, CountsOk, MarkedOk, BusOk, BatchOk, OrderOk, PrefixOk, Exec, Init, Project, Normal, FromRow, Drained,
         Committed, FirstCopies;
    var s := Exec(Init(), acts).value;
    ReachableIsSound(acts);
    AllSent(s, i);
    ProjectionReadsFirstCopies(i, s.bus);
    SoundSnapshots(s, i);
  }

  // ---- frames, closing, audit ----

  /** Consecutive snapshots differ only in the later event's changed_fields, updated_at, and closed_at with status. */
  lemma {:induction false} FrameSoundness(acts: seq<Action>, i: Uuid, k: nat)
    requires Exec(Init(), acts).Some?
    requires
      var s := Exec(Init(), acts).value;
      0 < k < |Snapshots(Committed(i, s.outbox, s.visible))|
    ensures
      var s := Exec(Init(), acts).value;
      var events := Committed(i, s.outbox, s.visible);
      && k < |Listings(events)|
      && Frame(Normal(Snapshots(events)[k - 1]), Normal(Snapshots(events)[k]), Listings(events)[k])
  {
    hide OutboxOk, OpensOk, PlannedOk, RowsFromThePast, DeliveryOk, CountsOk, Exec, Init, Committed, Snapshots, Listings,
         LogOk, Normal, FromRow, Frame, EventsOf;
    var s := Exec(Init(), acts).value;
    ReachableIsSound(acts);
    SoundSnapshots(s, i);
    NothingSeen();
    NoEvents();
    IncidentInHistory(s, i);
    NonEmptyLog(i, s.log[i]);
    LogListings(i, s.log[i]);
    LogFrames(i, s.log[i], k);
  }

  /**
   * A closed incident has closed_at; closed_at is set exactly when some commit left
   * the incident closed, and created_at <= updated_at.
   */
  lemma {:induction false} ClosureInvariant(acts: seq<Action>, i: Uuid)
    requires Exec(Init(), acts).Some? && i in Exec(Init(), acts).value.incidents
    ensures
      var s := Exec(Init(), acts).value;
      && i in s.log
      && (s.incidents[i].status == Closed ==> s.incidents[i].closedAt.Some?)
      && (s.incidents[i].closedAt.Some? <==> EverClosed(s.log[i]))
      && s.incidents[i].createdAt <= s.incidents[i].updatedAt
  {
    hide OutboxOk, OpensOk, PlannedOk, RowsFromThePast, DeliveryOk, CountsOk, Exec, Init, Committed, LogOk;
    var s := Exec(Init(), acts).value;
    ReachableIsSound(acts);
    IncidentInHistory(s, i);
    NonEmptyLog(i, s.log[i]);
    LogClosure(i, s.log[i]);
    if s.incidents[i].status == Closed {
      assert s.log[i][|s.log[i]| - 1].row.status == Closed;
    }
  }

  /** closed_at, once set, is set at every later moment of the run. */
  lemma {:induction false} ClosedAtNeverCleared(acts: seq<Action>, n: nat, i: Uuid)
    requires Exec(Init(), acts).Some? && n <= |acts|
    ensures Exec(Init(), acts[..n]).Some?
    ensures
      var t, u := Exec(Init(), acts[..n]).value, Exec(Init(), acts).value;
      i in t.incidents ==>
        && i in u.incidents
        && u.incidents[i].createdAt == t.incidents[i].createdAt
        && (t.incidents[i].closedAt.Some? ==> u.incidents[i].closedAt.Some?)
  {
    hide OutboxOk, OpensOk, PlannedOk, RowsFromThePast, DeliveryOk, CountsOk, Exec, Init, Committed, LogOk;
    RunsGrow(Init(), acts, n, i);
    var t, u := Exec(Init(), acts[..n]).value, Exec(Init(), acts).value;
    ReachableIsSound(acts);
    ReachableIsSound(acts[..n]);
    if i in t.incidents {
      IncidentInHistory(t, i);
      NonEmptyLog(i, t.log[i]);
      IncidentInHistory(u, i);
      LogClosure(i, t.log[i]);
      LogClosure(i, u.log[i]);
      if t.incidents[i].closedAt.Some? {
        ClosedAtStays(i, u.log[i], |t.log[i]| - 1, |u.log[i]| - 1);
      }
    }
  }

  /**
   * The success audit rows of an incident and its created/updated events go together one
   * to one, in order; a status_change row accounts for two or three outbox rows, any other for one.
   */
  lemma {:induction false} AuditMatchesEvents(acts: seq<Action>, i: Uuid) returns (groups: seq<Entry>)
    requires Exec(Init(), acts).Some?
    ensures
      var s := Exec(Init(), acts).value;
      && Committed(i, s.outbox, s.visible) == EventsOf(groups)
      && SuccessRows(i, s.audit) == AuditsOf(groups)
      && |SuccessRows(i, s.audit)| == |Snapshots(Committed(i, s.outbox, s.visible))|
    ensures forall k :: 0 <= k < |groups| ==> AuditGroup(groups[k].audit, groups[k].events)
  {
    hide OutboxOk, OpensOk, PlannedOk, RowsFromThePast, DeliveryOk, CountsOk, Exec, Init, Committed, LogOk, EventsOf,
         SuccessRows, Snapshots, AuditGroup;
    var s := Exec(Init(), acts).value;
    ReachableIsSound(acts);
    SoundSnapshots(s, i);
    NoEvents();
    NothingSeen();
    groups := if i in s.log then s.log[i] else [];
    forall k | 0 <= k < |groups|
      ensures AuditGroup(groups[k].audit, groups[k].events)
    {
      IncidentInHistory(s, i);
      LogEntry(i, groups, k);
      GroupOfEntry(groups[k]);
    }
  }

  /** One success audit row and the outbox rows it accounts for. */
  ghost predicate AuditGroup(a: AuditRow, es: seq<Envelope>) {
    && a.result == Success
    && (if a.action == StatusChangeAction then |es| in {2, 3} else |es| == 1)
    && es[0].payload.IsSnapshot()
    && (a.action == CreateAction <==> es[0].payload.Created?)
    && (forall x :: 0 < x < |es| ==> !es[x].payload.IsSnapshot())
    && (forall x :: 0 <= x < |es| ==>
          && a.target == Some(es[x].entity) && a.actor == es[x].actor && a.tenant == es[x].tenant
          && a.correlation == RecordedCorrelation(es[x].correlation))
  }

  lemma {:induction false} GroupOfEntry(e: Entry)
    requires EntryOk(e)
    ensures AuditGroup(e.audit, e.events)
  {
    hide PlanOk, PatchPayloads, Normal, FromRow;
    EntryPayloads(e);
    EventsPerAuditRow(e);
  }

  // ---- copies ----

  lemma {:induction false} CleanRunsAreExact(s: Sys, acts: seq<Action>)
    requires Sound(s) && ExactOk(s) && Exec(s, acts).Some?
    requires forall x :: 0 <= x < |acts| ==> Clean(acts[x])
    ensures ExactOk(Exec(s, acts).value)
  {
    hide TablesOk, DeliveryOk, CountsOk, ExactOk, Enabled, Apply, Clean;
    if acts != [] {
      var n := |acts| - 1;
      CleanRunsAreExact(s, acts[..n]);
      RunsStaySound(s, acts[..n]);
      StepKeepsCounts(Exec(s, acts[..n]).value, acts[n]);
    }
  }

  /**
   * Copy conservation. In every run a row has at most two copies per Publish call, and at
   * least one per accounted publish. When failed publishes deliver nothing and successful
   * ones deliver once, the copies are exactly one if marked, plus one per failed mark, plus
   * one while a mark is pending.
   */
  lemma {:induction false} CopyConservation(acts: seq<Action>, k: nat)
    requires Exec(Init(), acts).Some?
    requires k < |Exec(Init(), acts).value.outbox| && Exec(Init(), acts).value.outbox[k].body.WellFormed?
    ensures
      var s := Exec(Init(), acts).value;
      var copies := Copies(s.bus, s.outbox[k].eventId);
      var accounted := (if k in s.published then 1 else 0) + s.badMarks[k] + (if s.marking == Some(k) then 1 else 0);
      && accounted <= copies <= 2 * s.calls[k]
      && ((forall x :: 0 <= x < |acts| ==> Clean(acts[x])) ==> copies == accounted)
  {
    hide TablesOk, DeliveryOk, Exec, Init, Copies, Clean;
    ReachableIsSound(acts);
    InitIsSound();
    if forall x :: 0 <= x < |acts| ==> Clean(acts[x]) {
      CleanRunsAreExact(Init(), acts);
    }
  }

  /** No publish and no mark fails, and the relay is not stopped. */
  predicate FaultFree(a: Action) {
    && (a.Publish? ==> a.ok && a.copies == 1)
    && (a.Mark? ==> a.ok)
    && !a.Restart?
  }

  lemma {:induction false} FaultFreeRunsMarkEverything(acts: seq<Action>)
    requires Exec(Init(), acts).Some?
    requires forall x :: 0 <= x < |acts| ==> FaultFree(acts[x])
    ensures Exec(Init(), acts).value.badMarks == multiset{}
  {
    hide IsFetch, UniqueExternal, Writes, RowFor, PreparedCreate, LockedBy, AuditFor, PatchTxFor, ValidCreate;
    if acts != [] {
      var n := |acts| - 1;
      FaultFreeRunsMarkEverything(acts[..n]);
      assert FaultFree(acts[n]);
    }
  }

  /** A fault-free run publishes each marked row exactly once and no other row, but for the one being marked. */
  lemma {:induction false} FaultFreePublishesOnce(acts: seq<Action>, k: nat)
    requires Exec(Init(), acts).Some?
    requires forall x :: 0 <= x < |acts| ==> FaultFree(acts[x])
    requires k < |Exec(Init(), acts).value.outbox| && Exec(Init(), acts).value.outbox[k].body.WellFormed?
    requires Exec(Init(), acts).value.marking != Some(k)
    ensures
      var s := Exec(Init(), acts).value;
      Copies(s.bus, s.outbox[k].eventId) == if k in s.published then 1 else 0
  {
    hide Exec, Init, Copies;
    FaultFreeRunsMarkEverything(acts);
    forall x | 0 <= x < |acts|
      ensures Clean(acts[x])
    {
      assert FaultFree(acts[x]);
    }
    CopyConservation(acts, k);
  }
}
