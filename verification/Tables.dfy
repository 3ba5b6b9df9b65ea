/** What the tables, the open transactions and the commit history keep, over every step. */
module Tables {
  import opened Prelude
  import opened Lifecycle
  import opened Domain
  import opened Auth
  import opened Outbox
  import opened Machine

  ghost predicate SameEntity(rows: seq<OutboxRow>, a: nat, b: nat)
    requires a < |rows| && b < |rows|
  {
    rows[a].body.WellFormed? && rows[b].body.WellFormed? && rows[a].body.env.entity == rows[b].body.env.entity
  }

  /** Ids and stamps in the outbox come from the past; within one incident they grow with the position. */
  ghost predicate OutboxOk(rows: seq<OutboxRow>, visible: set<nat>, clock: Time, nextId: Uuid) {
    && (forall k :: k in visible ==> k < |rows|)
    && (forall k :: 0 <= k < |rows| ==> rows[k].createdAt < clock && rows[k].eventId < nextId)
    && (forall k :: 0 <= k < |rows| && rows[k].body.WellFormed? ==> rows[k].body.env.entity < nextId)
    && DistinctRows(rows)
    && (forall a, b :: 0 <= a < b < |rows| && SameEntity(rows, a, b) ==> rows[a].createdAt < rows[b].createdAt)
  }

  /** The envelope written for the x-th event of a transaction. */
  ghost predicate WrittenBy(env: Envelope, o: Open, x: nat)
    requires x < |o.payloads|
  {
    && env.entity == o.row.id
    && env.tenant == o.row.tenant
    && env.actor == o.who
    && env.correlation == o.correlation
    && env.payload == o.payloads[x]
  }

  ghost predicate DraftOk(d: Draft, o: Open, x: nat, clock: Time, nextId: Uuid)
    requires x < |o.payloads|
  {
    match d
    case Fresh(p) => o.plan.Some? && p == o.payloads[x]
    case Ready(r) =>
      && o.plan.None?
      && r.body.WellFormed? && WrittenBy(r.body.env, o, x)
      && r.body.env.eventId == r.eventId && r.eventId < nextId && r.createdAt < clock
  }

  /** The first row of an incident. */
  ghost predicate FirstRow(r: IncidentRow) {
    r.status == New && r.closedAt == None && r.createdAt == r.updatedAt
  }

  /** What the row and the events of an open transaction are, given the committed row. */
  ghost predicate WritesOk(i: Uuid, o: Open, incidents: map<Uuid, IncidentRow>) {
    && o.row.id == i
    && (o.plan.None? ==>
          && i !in incidents
          && FirstRow(o.row)
          && |o.payloads| == 1 && o.payloads[0].Created? && Normal(o.payloads[0].snapshot) == FromRow(o.row))
    && (o.plan.Some? ==>
          && i in incidents
          && PlanOk(o.plan.value)
          && o.row == ApplyUpdate(incidents[i], o.plan.value.upd)
          && incidents[i].createdAt < o.plan.value.upd.updatedAt
          && o.payloads == PatchPayloads(o.plan.value, FromRow(o.row)))
  }

  /** How far an open transaction has come with its outbox rows. */
  ghost predicate ProgressOk(i: Uuid, o: Open, rows: seq<OutboxRow>, visible: set<nat>, clock: Time, nextId: Uuid) {
    && |o.staged| + |o.todo| == |o.payloads|
    && Increasing(o.staged)
    && (forall x :: 0 <= x < |o.staged| ==>
          && o.staged[x] < |rows| && rows[o.staged[x]].body.WellFormed?
          && o.staged[x] !in visible
          && rows[o.staged[x]].About(i)
          && WrittenBy(rows[o.staged[x]].body.env, o, x))
    && (forall y :: 0 <= y < |o.todo| ==> DraftOk(o.todo[y], o, |o.staged| + y, clock, nextId))
    && (forall x, k :: 0 <= x < |o.staged| && k in visible && k < |rows| && rows[k].About(i) ==> k < o.staged[x])
    && (o.plan.None? && o.todo != [] ==> forall k :: 0 <= k < |rows| ==> !rows[k].About(i))
  }

  ghost predicate AuditOk(o: Open) {
    o.audit.Some? ==> o.audit.value == AuditFor(o, o.audit.value.id, o.audit.value.occurredAt)
  }

  ghost predicate OpenOk(i: Uuid, o: Open, incidents: map<Uuid, IncidentRow>, rows: seq<OutboxRow>,
                         visible: set<nat>, clock: Time, nextId: Uuid) {
    && i < nextId
    && o.row.createdAt < clock
    && WritesOk(i, o, incidents)
    && ProgressOk(i, o, rows, visible, clock, nextId)
    && AuditOk(o)
  }

  ghost predicate OpensOk(open: map<Uuid, Open>, incidents: map<Uuid, IncidentRow>, rows: seq<OutboxRow>,
                          visible: set<nat>, clock: Time, nextId: Uuid) {
    forall i :: i in open ==> OpenOk(i, open[i], incidents, rows, visible, clock, nextId)
  }

  ghost predicate PlannedOk(planned: set<PatchTx>, incidents: map<Uuid, IncidentRow>) {
    forall tx :: tx in planned ==>
      tx.id in incidents && PlanOk(tx.plan) && incidents[tx.id].createdAt < tx.plan.upd.updatedAt
  }

  // ---- history ----

  /** The payloads of a list of events. */
  function Payloads(es: seq<Envelope>): seq<Payload> {
    seq(|es|, x requires 0 <= x < |es| => es[x].payload)
  }

  /** One commit: the row, the audit row and the events tell the same story. */
  ghost predicate EntryOk(e: Entry) {
    && e.audit == AuditRow(e.audit.id, e.row.tenant, e.audit.occurredAt, e.audit.actor, AuditActionFor(e.plan),
                           Some(e.row.id), Success, e.audit.correlation)
    && (forall x :: 0 <= x < |e.events| ==>
          && e.events[x].entity == e.row.id
          && e.events[x].tenant == e.row.tenant
          && e.events[x].actor == e.audit.actor
          && e.audit.correlation == RecordedCorrelation(e.events[x].correlation))
    && (e.plan.None? ==>
          && FirstRow(e.row) && |e.events| == 1
          && e.events[0].payload.Created? && Normal(e.events[0].payload.snapshot) == FromRow(e.row))
    && (e.plan.Some? ==>
          && PlanOk(e.plan.value) && Payloads(e.events) == PatchPayloads(e.plan.value, FromRow(e.row)))
  }

  /** A later commit applied its update to exactly the row before it. */
  ghost predicate Follows(prev: IncidentRow, e: Entry) {
    && e.plan.Some?
    && e.row == ApplyUpdate(prev, e.plan.value.upd)
    && prev.createdAt < e.plan.value.upd.updatedAt
  }

  /** The commits on one incident, first to last. */
  ghost predicate LogOk(i: Uuid, es: seq<Entry>) {
    && es != []
    && es[0].plan.None?
    && (forall k :: 0 <= k < |es| ==> EntryOk(es[k]) && es[k].row.id == i)
    && (forall k :: 0 < k < |es| ==> Follows(es[k - 1].row, es[k]))
  }

  function EventsOf(es: seq<Entry>): seq<Envelope> {
    if es == [] then [] else EventsOf(es[..|es| - 1]) + es[|es| - 1].events
  }

  function AuditsOf(es: seq<Entry>): seq<AuditRow> {
    seq(|es|, x requires 0 <= x < |es| => es[x].audit)
  }

  /** The success rows of the audit table that target incident `i`. */
  function SuccessRows(i: Uuid, audit: seq<AuditRow>): seq<AuditRow> {
    if audit == [] then
      []
    else
      var n := |audit| - 1;
      SuccessRows(i, audit[..n])
      + if audit[n].result == Success && audit[n].target == Some(i) then [audit[n]] else []
  }

  /** The history explains the tables of one incident. */
  ghost predicate Explains(i: Uuid, es: seq<Entry>, row: IncidentRow, audit: seq<AuditRow>,
                           rows: seq<OutboxRow>, visible: set<nat>) {
    && LogOk(i, es)
    && es[|es| - 1].row == row
    && Committed(i, rows, visible) == EventsOf(es)
    && SuccessRows(i, audit) == AuditsOf(es)
  }

  ghost predicate HistoryOk(log: map<Uuid, seq<Entry>>, incidents: map<Uuid, IncidentRow>, audit: seq<AuditRow>,
                            rows: seq<OutboxRow>, visible: set<nat>, nextId: Uuid) {
    && log.Keys == incidents.Keys
    && (forall i :: i in log ==> i < nextId && Explains(i, log[i], incidents[i], audit, rows, visible))
    && (forall i: Uuid :: i !in log ==> Committed(i, rows, visible) == [] && SuccessRows(i, audit) == [])
  }

  ghost predicate RowsFromThePast(incidents: map<Uuid, IncidentRow>, clock: Time) {
    forall i :: i in incidents ==> incidents[i].createdAt < clock
  }

  ghost predicate TablesOk(s: Sys) {
    && s.clock > 0 && s.nextId > NIL_UUID
    && OutboxOk(s.outbox, s.visible, s.clock, s.nextId)
    && OpensOk(s.open, s.incidents, s.outbox, s.visible, s.clock, s.nextId)
    && RowsFromThePast(s.incidents, s.clock)
    && PlannedOk(s.planned, s.incidents)
    && HistoryOk(s.log, s.incidents, s.audit, s.outbox, s.visible, s.nextId)
  }

  // ---- the steps ----

  lemma {:induction false} InitKeepsTables()
    ensures TablesOk(Init())
  {
  }

  lemma {:induction false} TimeKeepsProgress(i: Uuid, o: Open, rows: seq<OutboxRow>, visible: set<nat>,
                                             clock: Time, nextId: Uuid, clock': Time, nextId': Uuid)
    requires ProgressOk(i, o, rows, visible, clock, nextId) && clock <= clock' && nextId <= nextId'
    ensures ProgressOk(i, o, rows, visible, clock', nextId')
  {
    hide WrittenBy, Increasing;
    forall y | 0 <= y < |o.todo|
      ensures DraftOk(o.todo[y], o, |o.staged| + y, clock', nextId')
    {
      assert DraftOk(o.todo[y], o, |o.staged| + y, clock, nextId);
    }
  }

  lemma {:induction false} TimeKeepsOutbox(rows: seq<OutboxRow>, visible: set<nat>, clock: Time, nextId: Uuid,
                                           clock': Time, nextId': Uuid)
    requires OutboxOk(rows, visible, clock, nextId) && clock <= clock' && nextId <= nextId'
    ensures OutboxOk(rows, visible, clock', nextId')
  {
    hide DistinctRows, SameEntity;
  }

  lemma {:induction false} TickKeepsTables(s: Sys, dt: nat, di: nat)
    requires TablesOk(s)
    ensures TablesOk(s.(clock := s.clock + dt, nextId := s.nextId + di))
  {
    hide OutboxOk, ProgressOk, WritesOk, AuditOk, PlannedOk, Explains;
    TimeKeepsOutbox(s.outbox, s.visible, s.clock, s.nextId, s.clock + dt, s.nextId + di);
    forall i | i in s.open
      ensures OpenOk(i, s.open[i], s.incidents, s.outbox, s.visible, s.clock + dt, s.nextId + di)
    {
      assert OpenOk(i, s.open[i], s.incidents, s.outbox, s.visible, s.clock, s.nextId);
      TimeKeepsProgress(i, s.open[i], s.outbox, s.visible, s.clock, s.nextId, s.clock + dt, s.nextId + di);
    }
  }

  lemma {:induction false} SuccessRowsGrow(i: Uuid, audit: seq<AuditRow>, a: AuditRow)
    ensures SuccessRows(i, audit + [a]) ==
            SuccessRows(i, audit) + if a.result == Success && a.target == Some(i) then [a] else []
  {
    assert (audit + [a])[..|audit|] == audit;
  }

  /** A denial changes no incident's history. */
  lemma {:induction false} DenyKeepsHistory(s: Sys, a: AuditRow)
    requires HistoryOk(s.log, s.incidents, s.audit, s.outbox, s.visible, s.nextId) && a.result == Refused
    ensures HistoryOk(s.log, s.incidents, s.audit + [a], s.outbox, s.visible, s.nextId)
  {
    hide LogOk, EventsOf, AuditsOf, Committed;
    forall i
      ensures SuccessRows(i, s.audit + [a]) == SuccessRows(i, s.audit)
    {
      SuccessRowsGrow(i, s.audit, a);
    }
  }

  lemma {:induction false} DenyKeepsTables(s: Sys, a: Action)
    requires TablesOk(s) && a.Deny?
    ensures TablesOk(DoDeny(s, a))
  {
    hide OutboxOk, OpensOk, PlannedOk, HistoryOk, RowsFromThePast;
    var s' := DoDeny(s, a);
    TickKeepsTables(s, 1, 1);
    DenyKeepsHistory(s.(clock := s.clock + 1, nextId := s.nextId + 1), s'.audit[|s.audit|]);
  }

  lemma {:induction false} PreparedCreateOk(c: CreateCall, incidents: map<Uuid, IncidentRow>, rows: seq<OutboxRow>,
                                            visible: set<nat>, clock: Time, nextId: Uuid)
    requires OutboxOk(rows, visible, clock, nextId)
    requires forall i :: i in incidents ==> i < nextId
    ensures
      var o := PreparedCreate(c, clock, nextId);
      OpenOk(o.row.id, o, incidents, rows, visible, clock + 2, o.row.id + 2)
  {
    hide DistinctRows, SameEntity;
    var o := PreparedCreate(c, clock, nextId);
    StoreThenLoad(o.payloads[0].snapshot);
    assert WritesOk(o.row.id, o, incidents);
    assert DraftOk(o.todo[0], o, 0, clock + 2, o.row.id + 2);
  }

  lemma {:induction false} OpenKeepsTables(s: Sys, i: Uuid, o: Open)
    requires TablesOk(s)
    requires OpenOk(i, o, s.incidents, s.outbox, s.visible, s.clock, s.nextId)
    ensures TablesOk(s.(open := s.open[i := o]))
  {
    hide OutboxOk, OpenOk, PlannedOk, HistoryOk, RowsFromThePast;
  }

  lemma {:induction false} OpenCreateKeepsTables(s: Sys, c: CreateCall)
    requires TablesOk(s)
    ensures TablesOk(DoOpenCreate(s, c))
  {
    hide OutboxOk, OpensOk, OpenOk, PlannedOk, RowsFromThePast, Explains;
    var o := PreparedCreate(c, s.clock, s.nextId);
    PreparedCreateOk(c, s.incidents, s.outbox, s.visible, s.clock, s.nextId);
    TickKeepsTables(s, 2, o.row.id + 2 - s.nextId);
    OpenKeepsTables(s.(clock := s.clock + 2, nextId := o.row.id + 2), o.row.id, o);
  }

  lemma {:induction false} ReadPriorKeepsTables(s: Sys, p: PatchCall)
    requires TablesOk(s) && Writes(s, p)
    ensures TablesOk(DoReadPrior(s, p))
  {
    hide OutboxOk, OpensOk, HistoryOk, PlanOk, PatchRefusal, ChangedFields;
    var s' := DoReadPrior(s, p);
    TickKeepsTables(s, s'.clock - s.clock, s'.nextId - s.nextId);
    PlansAreOk(FromRow(s.incidents[p.id]), p.input, p.accepted, s.clock, s.clock + 1);
  }

  lemma {:induction false} LockedOk(tx: PatchTx, incidents: map<Uuid, IncidentRow>, rows: seq<OutboxRow>,
                                    visible: set<nat>, clock: Time, nextId: Uuid)
    requires tx.id in incidents && incidents[tx.id].id == tx.id && tx.id < nextId
    requires PlanOk(tx.plan) && incidents[tx.id].createdAt < tx.plan.upd.updatedAt
    requires incidents[tx.id].createdAt < clock
    ensures OpenOk(tx.id, LockedBy(tx, incidents[tx.id]), incidents, rows, visible, clock, nextId)
  {
    hide PlanOk, FromRow;
  }

  lemma {:induction false} IncidentInHistory(s: Sys, i: Uuid)
    requires HistoryOk(s.log, s.incidents, s.audit, s.outbox, s.visible, s.nextId) && i in s.incidents
    ensures i in s.log && i < s.nextId && s.incidents[i].id == i
    ensures Explains(i, s.log[i], s.incidents[i], s.audit, s.outbox, s.visible)
  {
    hide EntryOk, Follows, EventsOf, AuditsOf, Committed, SuccessRows;
    assert Explains(i, s.log[i], s.incidents[i], s.audit, s.outbox, s.visible);
    assert EntryOk(s.log[i][|s.log[i]| - 1]);
  }

  lemma {:induction false} LockKeepsTables(s: Sys, tx: PatchTx)
    requires TablesOk(s) && tx in s.planned && tx.id in s.incidents && tx.id !in s.open
    ensures TablesOk(DoLock(s, tx))
  {
    hide OutboxOk, OpensOk, OpenOk, HistoryOk, PlanOk, LockedBy;
    IncidentInHistory(s, tx.id);
    LockedOk(tx, s.incidents, s.outbox, s.visible, s.clock, s.nextId);
    OpenKeepsTables(s, tx.id, LockedBy(tx, s.incidents[tx.id]));
  }

  lemma {:induction false} RecordedOk(i: Uuid, o: Open, incidents: map<Uuid, IncidentRow>, rows: seq<OutboxRow>,
                                      visible: set<nat>, clock: Time, nextId: Uuid, id: Uuid, at: Time)
    requires OpenOk(i, o, incidents, rows, visible, clock, nextId)
    ensures OpenOk(i, o.(audit := Some(AuditFor(o, id, at))), incidents, rows, visible, clock, nextId)
  {
    hide PlanOk, PatchPayloads, ApplyUpdate, FirstRow, Increasing;
    var o' := o.(audit := Some(AuditFor(o, id, at)));
    forall y | 0 <= y < |o.todo|
      ensures DraftOk(o'.todo[y], o', |o'.staged| + y, clock, nextId)
    {
      assert DraftOk(o.todo[y], o, |o.staged| + y, clock, nextId);
    }
  }

  lemma {:induction false} RecordKeepsTables(s: Sys, i: Uuid)
    requires TablesOk(s) && i in s.open
    ensures TablesOk(DoRecord(s, i))
  {
    hide OutboxOk, OpenOk, HistoryOk, PlannedOk, RowsFromThePast, AuditFor;
    TickKeepsTables(s, 1, 1);
    RecordedOk(i, s.open[i], s.incidents, s.outbox, s.visible, s.clock + 1, s.nextId + 1, s.nextId, s.clock);
    OpenKeepsTables(s.(clock := s.clock + 1, nextId := s.nextId + 1), i, DoRecord(s, i).open[i]);
  }

  /** A row appended behind the table, for whoever did not insert it. */
  lemma {:induction false} AppendKeepsOthers(i: Uuid, o: Open, rows: seq<OutboxRow>, visible: set<nat>, clock: Time,
                                             nextId: Uuid, r: OutboxRow, w: set<nat>)
    requires ProgressOk(i, o, rows, visible, clock, nextId) && !r.About(i)
    requires w == visible || w == visible + {|rows|}
    ensures ProgressOk(i, o, rows + [r], w, clock, nextId)
  {
    hide DraftOk, WrittenBy;
    forall k | 0 <= k < |rows + [r]| && (rows + [r])[k].About(i)
      ensures k < |rows| && rows[k].About(i) && (k in w ==> k in visible)
    {
    }
  }

  lemma {:induction false} AppendKeepsHistory(s: Sys, r: OutboxRow, w: set<nat>)
    requires HistoryOk(s.log, s.incidents, s.audit, s.outbox, s.visible, s.nextId)
    requires forall k :: k in s.visible ==> k < |s.outbox|
    requires w == s.visible || (w == s.visible + {|s.outbox|} && r.body.Malformed?)
    ensures HistoryOk(s.log, s.incidents, s.audit, s.outbox + [r], w, s.nextId)
  {
    hide LogOk, EventsOf, AuditsOf, SuccessRows, Committed;
    forall i
      ensures Committed(i, s.outbox + [r], w) == Committed(i, s.outbox, s.visible)
    {
      CommittedGrow(i, s.outbox, w, r);
      CommittedDepends(i, s.outbox, w, s.visible);
    }
  }

  lemma {:induction false} AppendKeepsOutbox(rows: seq<OutboxRow>, visible: set<nat>, clock: Time, nextId: Uuid,
                                             r: OutboxRow, w: set<nat>)
    requires OutboxOk(rows, visible, clock, nextId)
    requires w == visible || w == visible + {|rows|}
    requires r.createdAt < clock && r.eventId < nextId
    requires forall k :: 0 <= k < |rows| ==> rows[k].eventId != r.eventId
    requires r.body.WellFormed? ==>
               && r.body.env.eventId == r.eventId && r.body.env.entity < nextId
               && forall k :: 0 <= k < |rows| && rows[k].About(r.body.env.entity) ==> rows[k].createdAt < r.createdAt
    ensures OutboxOk(rows + [r], w, clock, nextId)
  {
    var rows' := rows + [r];
    forall a, b | 0 <= a < b < |rows'| && SameEntity(rows', a, b)
      ensures rows'[a].createdAt < rows'[b].createdAt
    {
      if b < |rows| {
        assert SameEntity(rows, a, b);
      }
    }
  }

  lemma {:induction false} InsertMalformedKeepsTables(s: Sys, tenant: Uuid)
    requires TablesOk(s)
    ensures TablesOk(DoInsertMalformed(s, tenant))
  {
    hide OutboxOk, ProgressOk, WritesOk, AuditOk, PlannedOk, HistoryOk, RowsFromThePast;
    var s' := DoInsertMalformed(s, tenant);
    var r := s'.outbox[|s.outbox|];
    TickKeepsTables(s, 1, 1);
    var t := s.(clock := s.clock + 1, nextId := s.nextId + 1);
    OutboxBounds(s);
    AppendKeepsOutbox(t.outbox, t.visible, t.clock, t.nextId, r, s'.visible);
    AppendKeepsHistory(t, r, s'.visible);
    forall i | i in s.open
      ensures OpenOk(i, s.open[i], s'.incidents, s'.outbox, s'.visible, s'.clock, s'.nextId)
    {
      assert OpenOk(i, t.open[i], t.incidents, t.outbox, t.visible, t.clock, t.nextId);
      AppendKeepsOthers(i, s.open[i], s.outbox, s.visible, s'.clock, s'.nextId, r, s'.visible);
    }
  }

  lemma {:induction false} OutboxBounds(s: Sys)
    requires OutboxOk(s.outbox, s.visible, s.clock, s.nextId)
    ensures forall k :: k in s.visible ==> k < |s.outbox|
    ensures forall k :: 0 <= k < |s.outbox| ==> s.outbox[k].createdAt < s.clock && s.outbox[k].eventId < s.nextId
  {
    hide DistinctRows, SameEntity;
  }

  /** The inserted row is the next event of its transaction, newer than every row of its incident. */
  lemma {:induction false} NextRowOk(s: Sys, i: Uuid)
    requires TablesOk(s) && i in s.open && s.open[i].todo != []
    ensures
      var o := s.open[i];
      var r := RowFor(s, o);
      var step := if o.todo[0].Fresh? then 1 else 0;
      && |o.staged| < |o.payloads|
      && r.About(i) && r.body.WellFormed? && WrittenBy(r.body.env, o, |o.staged|)
      && r.body.env.eventId == r.eventId && r.eventId < s.nextId + step && r.createdAt < s.clock + step
      && i < s.nextId
      && forall k :: 0 <= k < |s.outbox| && s.outbox[k].About(i) ==> s.outbox[k].createdAt < r.createdAt
  {
    hide HistoryOk, PlannedOk, RowsFromThePast, OutboxOk, PlanOk, ApplyUpdate, PatchPayloads, FirstRow, AuditOk;
    var o := s.open[i];
    assert OpenOk(i, o, s.incidents, s.outbox, s.visible, s.clock, s.nextId);
    assert DraftOk(o.todo[0], o, |o.staged| + 0, s.clock, s.nextId);
    OutboxBounds(s);
  }

  lemma {:induction false} EnqueuedProgress(i: Uuid, o: Open, rows: seq<OutboxRow>, visible: set<nat>, clock: Time,
                                            nextId: Uuid, r: OutboxRow)
    requires ProgressOk(i, o, rows, visible, clock, nextId)
    requires o.todo != [] && r.About(i) && WrittenBy(r.body.env, o, |o.staged|)
    requires forall k :: k in visible ==> k < |rows|
    requires o.plan.None? ==> |o.payloads| == 1
    ensures ProgressOk(i, o.(staged := o.staged + [|rows|], todo := o.todo[1..]), rows + [r], visible, clock, nextId)
  {
    var o' := o.(staged := o.staged + [|rows|], todo := o.todo[1..]);
    forall y | 0 <= y < |o'.todo|
      ensures DraftOk(o'.todo[y], o', |o'.staged| + y, clock, nextId)
    {
      assert DraftOk(o.todo[y + 1], o, |o.staged| + (y + 1), clock, nextId);
    }
    forall x | 0 <= x < |o.staged|
      ensures WrittenBy((rows + [r])[o.staged[x]].body.env, o', x)
    {
      assert WrittenBy(rows[o.staged[x]].body.env, o, x);
    }
    assert WrittenBy(r.body.env, o', |o.staged|);
  }

  lemma {:induction false} EnqueuedOpen(s: Sys, i: Uuid)
    requires TablesOk(s) && i in s.open && s.open[i].todo != []
    ensures
      var s' := DoEnqueue(s, i);
      OpenOk(i, s'.open[i], s'.incidents, s'.outbox, s'.visible, s'.clock, s'.nextId)
  {
    hide HistoryOk, PlannedOk, RowsFromThePast, OutboxOk, ProgressOk, PlanOk, ApplyUpdate, PatchPayloads, FirstRow;
    var o := s.open[i];
    var s' := DoEnqueue(s, i);
    NextRowOk(s, i);
    OutboxBounds(s);
    assert OpenOk(i, o, s.incidents, s.outbox, s.visible, s.clock, s.nextId);
    TimeKeepsProgress(i, o, s.outbox, s.visible, s.clock, s.nextId, s'.clock, s'.nextId);
    EnqueuedProgress(i, o, s.outbox, s.visible, s'.clock, s'.nextId, RowFor(s, o));
  }

  lemma {:induction false} EnqueueKeepsTables(s: Sys, i: Uuid)
    requires TablesOk(s) && Enabled(s, Enqueue(i))
    ensures TablesOk(DoEnqueue(s, i))
  {
    hide OutboxOk, ProgressOk, WritesOk, AuditOk, PlannedOk, HistoryOk, RowsFromThePast, RowFor, WrittenBy;
    var s' := DoEnqueue(s, i);
    var r := RowFor(s, s.open[i]);
    TickKeepsTables(s, s'.clock - s.clock, s'.nextId - s.nextId);
    var t := s.(clock := s'.clock, nextId := s'.nextId);
    NextRowOk(s, i);
    OutboxBounds(s);
    AppendKeepsOutbox(t.outbox, t.visible, t.clock, t.nextId, r, t.visible);
    AppendKeepsHistory(t, r, s.visible);
    EnqueuedOpen(s, i);
    forall j | j in s'.open
      ensures OpenOk(j, s'.open[j], s'.incidents, s'.outbox, s'.visible, s'.clock, s'.nextId)
    {
      if j != i {
        assert OpenOk(j, t.open[j], t.incidents, t.outbox, t.visible, t.clock, t.nextId);
        AppendKeepsOthers(j, s.open[j], s.outbox, s.visible, s'.clock, s'.nextId, r, s.visible);
      }
    }
  }

  lemma {:induction false} AbortKeepsTables(s: Sys, i: Uuid)
    requires TablesOk(s)
    ensures TablesOk(s.(open := s.open - {i}))
  {
    hide OutboxOk, OpenOk, PlannedOk, HistoryOk, RowsFromThePast;
  }

  lemma {:induction false} ForgetKeepsTables(s: Sys, tx: PatchTx)
    requires TablesOk(s)
    ensures TablesOk(s.(planned := s.planned - {tx}))
  {
    hide OutboxOk, OpensOk, HistoryOk, RowsFromThePast, PlanOk;
  }

  /** The history entry a commit adds. */
  ghost function NewEntry(s: Sys, i: Uuid): Entry
    requires i in s.open && s.open[i].audit.Some? && StagedOk(s.outbox, s.open[i])
  {
    Entry(s.open[i].row, s.open[i].audit.value, EnvelopesAt(s.outbox, s.open[i].staged), s.open[i].plan)
  }

  lemma {:induction false} EntryFromOpen(i: Uuid, o: Open, incidents: map<Uuid, IncidentRow>, e: Entry)
    requires WritesOk(i, o, incidents) && AuditOk(o) && o.audit.Some?
    requires e.row == o.row && e.audit == o.audit.value && e.plan == o.plan
    requires |e.events| == |o.payloads|
    requires forall x :: 0 <= x < |e.events| ==> WrittenBy(e.events[x], o, x)
    ensures EntryOk(e) && e.row.id == i
    ensures i in incidents ==> Follows(incidents[i], e)
    ensures i !in incidents ==> e.plan.None?
  {
    hide PlanOk, PatchPayloads, ApplyUpdate, FromRow;
    assert Payloads(e.events) == o.payloads;
    if o.plan.None? {
      assert WrittenBy(e.events[0], o, 0);
    }
  }

  lemma {:induction false} NewEntryOk(s: Sys, i: Uuid)
    requires TablesOk(s) && CanCommit(s, i)
    ensures EntryOk(NewEntry(s, i)) && NewEntry(s, i).row.id == i
    ensures i in s.incidents ==> Follows(s.incidents[i], NewEntry(s, i))
    ensures i !in s.incidents ==> NewEntry(s, i).plan.None?
  {
    hide OutboxOk, HistoryOk, PlannedOk, RowsFromThePast, WritesOk, AuditOk, EntryOk, Follows, DraftOk, WrittenBy,
         UniqueExternal, Increasing;
    var o := s.open[i];
    var e := NewEntry(s, i);
    assert OpenOk(i, o, s.incidents, s.outbox, s.visible, s.clock, s.nextId);
    forall x | 0 <= x < |e.events|
      ensures WrittenBy(e.events[x], o, x)
    {
      assert WrittenBy(s.outbox[o.staged[x]].body.env, o, x);
    }
    EntryFromOpen(i, o, s.incidents, e);
  }

  lemma {:induction false} LogGrows(i: Uuid, es: seq<Entry>, e: Entry)
    requires es != [] ==> LogOk(i, es) && Follows(es[|es| - 1].row, e)
    requires es == [] ==> e.plan.None?
    requires EntryOk(e) && e.row.id == i
    ensures LogOk(i, es + [e])
    ensures EventsOf(es + [e]) == EventsOf(es) + e.events
    ensures AuditsOf(es + [e]) == AuditsOf(es) + [e.audit]
  {
    hide EntryOk, Follows;
    assert (es + [e])[..|es|] == es;
  }

  /** What a commit on `i` does to the rows and audit rows of each incident. */
  lemma {:induction false} CommitReads(s: Sys, i: Uuid, j: Uuid)
    requires TablesOk(s) && CanCommit(s, i)
    ensures
      var s' := DoCommit(s, i);
      var own := j == i;
      && Committed(j, s'.outbox, s'.visible) ==
         Committed(j, s.outbox, s.visible) + (if own then NewEntry(s, i).events else [])
      && SuccessRows(j, s'.audit) == SuccessRows(j, s.audit) + (if own then [NewEntry(s, i).audit] else [])
  {
    hide OutboxOk, HistoryOk, PlannedOk, RowsFromThePast, PlanOk, ApplyUpdate, PatchPayloads, DraftOk, WrittenBy,
         UniqueExternal, FirstRow, Committed, SuccessRows;
    var o := s.open[i];
    assert OpenOk(i, o, s.incidents, s.outbox, s.visible, s.clock, s.nextId);
    SuccessRowsGrow(j, s.audit, o.audit.value);
    if j == i {
      CommitAppends(i, s.outbox, s.visible, o.staged);
    } else {
      CommittedDepends(j, s.outbox, s.visible, s.visible + Elements(o.staged));
    }
  }

  lemma {:induction false} CommitKeepsExplained(s: Sys, i: Uuid, j: Uuid)
    requires TablesOk(s) && CanCommit(s, i) && (j in s.log || j == i)
    ensures
      var s' := DoCommit(s, i);
      && j < s'.nextId
      && Explains(j, s'.log[j], s'.incidents[j], s'.audit, s'.outbox, s'.visible)
  {
    hide OutboxOk, PlannedOk, RowsFromThePast, LogOk, EventsOf, AuditsOf, Committed, SuccessRows,
         UniqueExternal, EntryOk, Follows, WritesOk, ProgressOk, AuditOk;
    CommitReads(s, i, j);
    assert OpenOk(i, s.open[i], s.incidents, s.outbox, s.visible, s.clock, s.nextId);
    if j == i {
      NewEntryOk(s, i);
      var es := if i in s.log then s.log[i] else [];
      if i in s.log {
        IncidentInHistory(s, i);
        NonEmptyLog(i, s.log[i]);
      } else {
        NoEvents();
      }
      LogGrows(i, es, NewEntry(s, i));
    } else {
      IncidentInHistory(s, j);
    }
  }

  lemma {:induction false} NonEmptyLog(i: Uuid, es: seq<Entry>)
    requires LogOk(i, es)
    ensures es != []
  {
    hide EntryOk, Follows;
  }

  lemma {:induction false} NoEvents()
    ensures EventsOf([]) == [] && AuditsOf([]) == []
  {
  }

  lemma {:induction false} CommitKeepsHistory(s: Sys, i: Uuid)
    requires TablesOk(s) && CanCommit(s, i)
    ensures
      var s' := DoCommit(s, i);
      HistoryOk(s'.log, s'.incidents, s'.audit, s'.outbox, s'.visible, s'.nextId)
  {
    hide OutboxOk, OpensOk, PlannedOk, RowsFromThePast, Explains, Committed, SuccessRows, UniqueExternal;
    var s' := DoCommit(s, i);
    forall j: Uuid
      ensures j in s'.log ==> j < s'.nextId
      ensures j in s'.log ==> Explains(j, s'.log[j], s'.incidents[j], s'.audit, s'.outbox, s'.visible)
      ensures j !in s'.log ==> Committed(j, s'.outbox, s'.visible) == [] && SuccessRows(j, s'.audit) == []
    {
      if j in s'.log {
        CommitKeepsExplained(s, i, j);
      } else {
        CommitReads(s, i, j);
      }
    }
  }

  /** A commit on another incident leaves an open transaction as it was. */
  lemma {:induction false} CommitKeepsProgress(j: Uuid, p: Open, rows: seq<OutboxRow>, visible: set<nat>, clock: Time,
                                               nextId: Uuid, more: seq<nat>)
    requires ProgressOk(j, p, rows, visible, clock, nextId)
    requires forall x :: 0 <= x < |more| ==> more[x] < |rows| && !rows[more[x]].About(j)
    ensures ProgressOk(j, p, rows, visible + Elements(more), clock, nextId)
  {
    hide DraftOk, WrittenBy, Increasing;
    forall k | k in Elements(more)
      ensures k < |rows| && !rows[k].About(j)
    {
      var x :| 0 <= x < |more| && more[x] == k;
    }
  }

  lemma {:induction false} StagedRows(s: Sys, i: Uuid)
    requires TablesOk(s) && i in s.open
    ensures StagedOk(s.outbox, s.open[i])
    ensures forall x :: 0 <= x < |s.open[i].staged| ==> s.outbox[s.open[i].staged[x]].About(i)
    ensures s.open[i].row.id == i && s.open[i].row.createdAt < s.clock
    ensures s.open[i].plan.Some? <==> i in s.incidents
    ensures s.open[i].plan.Some? ==> s.open[i].row.createdAt == s.incidents[i].createdAt
  {
    hide OutboxOk, HistoryOk, PlannedOk, RowsFromThePast, PlanOk, PatchPayloads, DraftOk, WrittenBy, FirstRow;
    assert OpenOk(i, s.open[i], s.incidents, s.outbox, s.visible, s.clock, s.nextId);
  }

  lemma {:induction false} CommitKeepsOpens(s: Sys, i: Uuid)
    requires TablesOk(s) && CanCommit(s, i)
    ensures
      var s' := DoCommit(s, i);
      OpensOk(s'.open, s'.incidents, s'.outbox, s'.visible, s'.clock, s'.nextId)
  {
    hide OutboxOk, HistoryOk, PlannedOk, RowsFromThePast, UniqueExternal, ProgressOk, PlanOk, PatchPayloads,
         ApplyUpdate, FirstRow;
    var s' := DoCommit(s, i);
    StagedRows(s, i);
    forall j | j in s'.open
      ensures OpenOk(j, s'.open[j], s'.incidents, s'.outbox, s'.visible, s'.clock, s'.nextId)
    {
      assert OpenOk(j, s.open[j], s.incidents, s.outbox, s.visible, s.clock, s.nextId);
      CommitKeepsProgress(j, s.open[j], s.outbox, s.visible, s.clock, s.nextId, s.open[i].staged);
    }
  }

  lemma {:induction false} CommitKeepsVisible(rows: seq<OutboxRow>, visible: set<nat>, clock: Time, nextId: Uuid,
                                              more: seq<nat>)
    requires OutboxOk(rows, visible, clock, nextId)
    requires forall x :: 0 <= x < |more| ==> more[x] < |rows|
    ensures OutboxOk(rows, visible + Elements(more), clock, nextId)
  {
    hide DistinctRows, SameEntity;
  }

  lemma {:induction false} CommitKeepsTables(s: Sys, i: Uuid)
    requires TablesOk(s) && CanCommit(s, i)
    ensures TablesOk(DoCommit(s, i))
  {
    hide OutboxOk, OpensOk, HistoryOk, UniqueExternal, PlanOk;
    StagedRows(s, i);
    CommitKeepsHistory(s, i);
    CommitKeepsOpens(s, i);
    CommitKeepsVisible(s.outbox, s.visible, s.clock, s.nextId, s.open[i].staged);
  }

  /** Every step keeps the tables, their open transactions and their history in order. */
  lemma {:induction false} StepKeepsTables(s: Sys, a: Action)
    requires TablesOk(s) && Enabled(s, a)
    ensures TablesOk(Apply(s, a))
  {
    hide OutboxOk, OpensOk, HistoryOk, PlannedOk, RowsFromThePast, DoDeny, DoOpenCreate, DoReadPrior, DoLock, DoRecord,
         DoEnqueue, DoCommit, DoInsertMalformed, IsFetch, CanCommit, Writes, StagedOk, RowFor, ValidCreate;
    match a
    case Tick(dt, di) => TickKeepsTables(s, dt, di);
    case Deny(_, _, _, _, _) => DenyKeepsTables(s, a);
    case OpenCreate(c) => OpenCreateKeepsTables(s, c);
    case ReadPrior(p) => ReadPriorKeepsTables(s, p);
    case Lock(tx) => LockKeepsTables(s, tx);
    case Record(i) => RecordKeepsTables(s, i);
    case Enqueue(i) => EnqueueKeepsTables(s, i);
    case Commit(i) => CommitKeepsTables(s, i);
    case Abort(i) => AbortKeepsTables(s, i);
    case Forget(tx) => ForgetKeepsTables(s, tx);
    case InsertMalformed(t) => InsertMalformedKeepsTables(s, t);
    case Mark(_) => TickKeepsTables(s, 1, 0);
    case _ =>
  }
}
