/**
 * What Create and Patch do, told in the caller's terms: field by field from the request, without
 * the functions the service computes with.
 */
module Requests {
  import opened Prelude
  import opened Lifecycle
  import opened Domain
  import opened Auth
  import opened Outbox
  import opened Machine
  import opened Tables
  import opened Serial
  import opened PatchAlgebra

  // ---- shared ----

  /** A snapshot shows exactly what the row holds. */
  predicate Shows(i: Incident, r: IncidentRow) {
    && i.id == r.id && i.tenant == r.tenant && i.schemaVersion == r.schemaVersion && i.externalId == r.externalId
    && i.title == r.title && i.description == r.description && i.severity == r.severity && i.status == r.status
    && i.assignee == r.assignee && i.sourceConnector == r.sourceConnector && i.attributes == r.attributes
    && i.tags == r.tags && i.createdAt == r.createdAt && i.updatedAt == r.updatedAt && i.closedAt == r.closedAt
  }

  lemma {:induction false} LoadShows(r: IncidentRow)
    ensures Shows(FromRow(r), r)
  {
  }

  /** The id a request carries is kept; without one a fresh id is drawn. */
  predicate Correlates(given: Uuid, used: Uuid, nextId: Uuid) {
    used != NIL_UUID && used == (if given != NIL_UUID then given else nextId)
  }

  /** The audit row of one accepted request. */
  predicate Audited(a: AuditRow, action: AuditAction, who: Principal, tenant: Uuid, id: Uuid, correlation: Uuid) {
    && a.action == action && a.result == Success && a.target == Some(id)
    && a.actor == who && a.tenant == tenant && a.correlation == Some(correlation)
  }

  /** An outbox row with an event of this request about this incident. */
  predicate Emitted(row: OutboxRow, who: Principal, tenant: Uuid, id: Uuid, correlation: Uuid) {
    && row.body.WellFormed? && row.tenant == tenant && row.eventId == row.body.env.eventId
    && row.body.env.tenant == tenant && row.body.env.actor == who && row.body.env.entity == id
    && row.body.env.correlation == correlation
  }

  /** The audit row of a denied request. */
  predicate DenialTold(a: AuditRow, who: Principal, tenant: Uuid, action: AuditAction, target: Option<Uuid>, given: Uuid) {
    && a.action == action && a.result == Refused && a.target == target && a.actor == who && a.tenant == tenant
    && a.correlation == (if given != NIL_UUID then Some(given) else None)
  }

  // ---- Create ----

  /** The row has the fields of the input, and is new. */
  predicate RowFromInput(r: IncidentRow, p: CreateInput, tenant: Uuid) {
    && r.tenant == tenant && r.schemaVersion == 1
    && r.title == p.title && r.description == p.description && r.severity == p.severity && r.assignee == p.assignee
    && r.externalId == p.externalId && r.sourceConnector == p.sourceConnector && r.tags == p.tags
    && r.attributes == Some(if p.attributes.Some? then p.attributes.value else map[])
    && r.status == New && r.closedAt == None && r.updatedAt == r.createdAt
  }

  /** The snapshot has them too; nil attributes stay nil. */
  predicate SnapshotFromInput(i: Incident, p: CreateInput, tenant: Uuid) {
    && i.tenant == tenant && i.schemaVersion == 1
    && i.title == p.title && i.description == p.description && i.severity == p.severity && i.assignee == p.assignee
    && i.externalId == p.externalId && i.sourceConnector == p.sourceConnector && i.tags == p.tags
    && i.attributes == p.attributes
    && i.status == New && i.closedAt == None && i.updatedAt == i.createdAt
  }

  predicate CreateAccepted(p: CreateInput) {
    p.title != "" && p.severity in {Low, Medium, High, Critical}
  }

  lemma {:induction false} CreateAcceptedExactly(p: CreateInput)
    ensures ValidCreate(p) <==> CreateAccepted(p)
  {
    assert p.severity.IsValid() <==> p.severity in {Low, Medium, High, Critical};
  }

  /** The one row another incident of the tenant may hold back: same connector, same external id. */
  ghost predicate ExternalTaken(incidents: map<Uuid, IncidentRow>, p: CreateInput, tenant: Uuid) {
    && p.externalId.Some? && p.sourceConnector.Some?
    && exists j :: j in incidents && incidents[j].tenant == tenant
                   && incidents[j].sourceConnector == p.sourceConnector && incidents[j].externalId == p.externalId
  }

  /** A Create, from its request to the tables. */
  ghost predicate CreateTold(s: Sys, t: Sys, c: CreateCall, returned: Incident) {
    var i, n := returned.id, |s.outbox|;
    && i !in s.incidents && i in t.incidents
    && t.incidents == s.incidents[i := t.incidents[i]]
    && t.incidents[i].id == i && RowFromInput(t.incidents[i], c.input, c.tenant) && t.incidents[i].createdAt == s.clock
    && SnapshotFromInput(returned, c.input, c.tenant) && returned.createdAt == s.clock
    && |t.outbox| == n + 1 && s.outbox <= t.outbox && t.visible == s.visible + {n}
    && |t.audit| == |s.audit| + 1 && s.audit <= t.audit
    && t.outbox[n].body.WellFormed? && t.outbox[n].createdAt == s.clock && t.outbox[n].body.env.occurredAt > s.clock
    && t.outbox[n].body.env.payload == Created(returned)
    && Emitted(t.outbox[n], c.who, c.tenant, i, t.outbox[n].body.env.correlation)
    && Audited(t.audit[|s.audit|], CreateAction, c.who, c.tenant, i, t.outbox[n].body.env.correlation)
    && Correlates(c.correlation, t.outbox[n].body.env.correlation, s.nextId)
  }

  lemma {:induction false} CreatedIsTold(s: Sys, t: Sys, c: CreateCall, returned: Incident)
    requires s.nextId > NIL_UUID && CreatedAlone(s, t, c)
    requires Created(returned) == PreparedCreate(c, s.clock, s.nextId).payloads[0]
    ensures CreateTold(s, t, c, returned)
  {
  }

  // ---- Patch ----

  /** Which requests are accepted, and what the others are told. */
  predicate PatchKnown(p: PatchInput) {
    && (p.severity.Some? ==> p.severity.value in {Low, Medium, High, Critical})
    && (p.status.Some? ==> p.status.value in {New, Triaged, InProgress, Contained, Resolved, Closed})
  }

  predicate PatchMoves(status: Status, p: PatchInput) {
    p.status.Some? ==> MayMove(status, p.status.value)
  }

  /** The incident is there, in the caller's tenant. */
  predicate PatchFound(incidents: map<Uuid, IncidentRow>, c: PatchCall) {
    c.id in incidents && incidents[c.id].tenant == c.tenant
  }

  predicate PatchAccepted(incidents: map<Uuid, IncidentRow>, c: PatchCall) {
    && PatchFound(incidents, c) && PatchKnown(c.input) && PatchMoves(incidents[c.id].status, c.input)
    && (c.input.attributes.Some? ==> c.accepted)
  }

  function PatchError(incidents: map<Uuid, IncidentRow>, c: PatchCall): Error {
    if !PatchFound(incidents, c) then NotFound
    else if PatchKnown(c.input) && !PatchMoves(incidents[c.id].status, c.input) then InvalidTransition
    else InvalidInput
  }

  /** Does the request name the field as changed? Equal titles and tags do not count, anything else given does. */
  predicate Named(f: Field, before: IncidentRow, p: PatchInput) {
    match f
    case TitleField => p.title.Some? && p.title.value != before.title
    case DescriptionField => p.description.Some?
    case SeverityField => p.severity.Some?
    case StatusField => p.status.Some?
    case AssigneeField => p.assignee.Some?
    case AttributesField => p.attributes.Some?
    case TagsField => p.tags.Some? && p.tags.value != before.tags.GetOr([])
  }

  ghost predicate NamesSomething(before: IncidentRow, p: PatchInput) {
    exists f :: Named(f, before, p)
  }

  /** The request finds its incident and names something to change. */
  ghost predicate PatchChanges(incidents: map<Uuid, IncidentRow>, c: PatchCall) {
    c.id in incidents && NamesSomething(incidents[c.id], c.input)
  }

  lemma {:induction false} FieldListed(before: IncidentRow, p: PatchInput, f: Field)
    ensures f in ChangedFields(FromRow(before), p) <==> Named(f, before, p)
  {
    LoadShows(before);
    ChangedFieldsMembers(FromRow(before), p);
  }

  /** Refusals, their errors, and when there is anything to write. */
  lemma {:induction false} PatchPlanExactly(s: Sys, c: PatchCall)
    ensures PatchPlan(s, c).Ok? <==> PatchAccepted(s.incidents, c)
    ensures PatchPlan(s, c).Err? ==> PatchPlan(s, c).error == PatchError(s.incidents, c)
    ensures Writes(s, c) <==> PatchAccepted(s.incidents, c) && PatchChanges(s.incidents, c)
  {
    hide ChangedFields, UpdateFor, CanTransition, MayMove;
    if PatchFound(s.incidents, c) {
      var before, p := s.incidents[c.id], c.input;
      LoadShows(before);
      if p.severity.Some? {
        assert p.severity.value.IsValid() <==> p.severity.value in {Low, Medium, High, Critical};
      }
      if p.status.Some? {
        assert p.status.value.IsValid() <==> p.status.value in {New, Triaged, InProgress, Contained, Resolved, Closed};
        MovesAreTransitions(before.status, p.status.value);
      }
      if PatchPlan(s, c).Ok? {
        var listed := ChangedFields(FromRow(before), p);
        assert PatchPlan(s, c).value.changed == listed;
        if listed != [] {
          FieldListed(before, p, listed[0]);
        }
        forall f | Named(f, before, p)
          ensures listed != []
        {
          FieldListed(before, p, f);
        }
      }
    }
  }

  /** The row after an accepted request: what was given is written, the rest is as before. */
  predicate InputApplied(before: IncidentRow, after: IncidentRow, p: PatchInput, clock: Time) {
    && after.title == (if p.title.Some? then p.title.value else before.title)
    && after.description == (if p.description.Some? then p.description else before.description)
    && after.severity == (if p.severity.Some? then p.severity.value else before.severity)
    && after.status == (if p.status.Some? then p.status.value else before.status)
    && after.assignee == (if p.assignee.Some? then p.assignee else before.assignee)
    && after.attributes == (if p.attributes.Some? then p.attributes else before.attributes)
    && after.tags.GetOr([]) == (if p.tags.Some? then p.tags.value else before.tags.GetOr([]))
    && (p.tags.None? ==> after.tags == before.tags)
    && after.closedAt == (if p.status == Some(Closed) then Some(clock + 1) else before.closedAt)
    && after.updatedAt == clock
    && after.id == before.id && after.tenant == before.tenant && after.createdAt == before.createdAt
    && after.schemaVersion == before.schemaVersion && after.externalId == before.externalId
    && after.sourceConnector == before.sourceConnector
  }

  /** Does the request change the status? */
  predicate Moved(before: IncidentRow, p: PatchInput) {
    p.status.Some? && p.status.value != before.status
  }

  /** One event, a second on a change of status, a third when it is a change to closed. */
  function EventsOfPatch(before: IncidentRow, p: PatchInput): nat {
    if !Moved(before, p) then 1 else if p.status.value == Closed then 3 else 2
  }

  /** The events of an accepted request, from position n on. */
  ghost predicate PatchAnnounced(rows: seq<OutboxRow>, n: nat, before: IncidentRow, after: IncidentRow, p: PatchInput) {
    && |rows| == n + EventsOfPatch(before, p)
    && (forall x :: n <= x < |rows| ==> rows[x].body.WellFormed?)
    && var first := rows[n].body.env.payload;
    && first.Updated? && Shows(first.snapshot, after)
    && (forall f :: f in first.changed <==> Named(f, before, p))
    && (forall x, y :: 0 <= x < y < |first.changed| ==> FieldPlace(first.changed[x]) < FieldPlace(first.changed[y]))
    && (Moved(before, p) ==>
          && rows[n + 1].body.env.payload == StatusChanged(before.status, p.status.value, before.id)
          && (p.status.value == Closed ==>
                rows[n + 2].body.env.payload == IncidentClosed(before.id, after.closedAt, Closed)))
  }

  /** A Patch that has something to write, from its request to the tables. */
  ghost predicate PatchTold(s: Sys, t: Sys, c: PatchCall) {
    && c.id in s.incidents && c.id in t.incidents && s.incidents[c.id].id == c.id
    && t.incidents == s.incidents[c.id := t.incidents[c.id]]
    && InputApplied(s.incidents[c.id], t.incidents[c.id], c.input, s.clock)
    && s.outbox <= t.outbox
    && PatchAnnounced(t.outbox, |s.outbox|, s.incidents[c.id], t.incidents[c.id], c.input)
    && |t.audit| == |s.audit| + 1 && s.audit <= t.audit
    && var correlation := t.outbox[|s.outbox|].body.env.correlation;
    && Correlates(c.correlation, correlation, s.nextId)
    && (forall x :: |s.outbox| <= x < |t.outbox| ==>
          x in t.visible && Emitted(t.outbox[x], c.who, c.tenant, c.id, correlation))
    && Audited(t.audit[|s.audit|], if Moved(s.incidents[c.id], c.input) then StatusChangeAction else UpdateAction,
               c.who, c.tenant, c.id, correlation)
  }

  /** The plan and what it leaves of the row, read back to the request. */
  lemma {:induction false} PlanReads(s: Sys, c: PatchCall)
    requires TablesOk(s) && Writes(s, c)
    ensures c.id in s.incidents && s.incidents[c.id].id == c.id
    ensures
      var before := s.incidents[c.id];
      var plan := PatchPlan(s, c).value;
      && InputApplied(before, ApplyUpdate(before, plan.upd), c.input, s.clock)
      && plan.changed == ChangedFields(FromRow(before), c.input)
      && plan.status == (if c.input.status.Some? then Some(Change(before.status, c.input.status.value)) else None)
  {
    hide TablesOk, CanTransition, ChangedFields, InputApplied, ApplyUpdate, UpdateFor, FromRow, PatchRefusal;
    PlanNamesIncident(s, c);
    KnownById(s, c.id);
    var before := s.incidents[c.id];
    LoadShows(before);
    PatchRowExactly(before, c.input, c.accepted, s.clock, s.clock + 1);
    PatchedApplies(before, c.input, s.clock);
  }

  lemma {:induction false} KnownById(s: Sys, i: Uuid)
    requires TablesOk(s) && i in s.incidents
    ensures s.incidents[i].id == i
  {
    hide OutboxOk, OpensOk, PlannedOk, RowsFromThePast, HistoryOk;
    IncidentInHistory(s, i);
  }

  lemma {:induction false} PatchedApplies(before: IncidentRow, p: PatchInput, clock: Time)
    ensures InputApplied(before, Patched(before, p, clock, clock + 1), p, clock)
  {
  }

  /** The x-th row from position n on carries the x-th payload. */
  ghost predicate EventAt(rows: seq<OutboxRow>, n: nat, payloads: seq<Payload>, x: int)
    requires 0 <= x < |payloads|
  {
    n + x < |rows| && rows[n + x].body.WellFormed? && rows[n + x].body.env.payload == payloads[x]
  }

  lemma {:induction false} PayloadsRead(s: Sys, c: PatchCall, rows: seq<OutboxRow>)
    requires TablesOk(s) && Writes(s, c) && |s.outbox| <= |rows|
    requires
      var plan := PatchPlan(s, c).value;
      var payloads := PatchPayloads(plan, FromRow(ApplyUpdate(s.incidents[c.id], plan.upd)));
      && |rows| == |s.outbox| + |payloads|
      && forall x :: 0 <= x < |payloads| ==> EventAt(rows, |s.outbox|, payloads, x)
    ensures c.id in s.incidents
    ensures
      PatchAnnounced(rows, |s.outbox|, s.incidents[c.id],
                     ApplyUpdate(s.incidents[c.id], PatchPlan(s, c).value.upd), c.input)
  {
    hide TablesOk, PatchPlan, ChangedFields, ApplyUpdate, FromRow, FieldPlace, Named, Shows, InputApplied;
    PlanReads(s, c);
    var before := s.incidents[c.id];
    var plan := PatchPlan(s, c).value;
    var after := ApplyUpdate(before, plan.upd);
    AfterKeepsId(before, plan.upd);
    LoadShows(after);
    LoadedId(after);
    ChangedFieldsInOrder(FromRow(before), c.input);
    var payloads := PatchPayloads(plan, FromRow(after));
    var n := |s.outbox|;
    forall x | n <= x < |rows|
      ensures rows[x].body.WellFormed? && rows[x].body.env.payload == payloads[x - n]
    {
      assert EventAt(rows, n, payloads, x - n);
    }
    forall f
      ensures f in plan.changed <==> Named(f, before, c.input)
    {
      FieldListed(before, c.input, f);
    }
  }

  lemma {:induction false} AfterKeepsId(before: IncidentRow, u: IncidentUpdate)
    ensures ApplyUpdate(before, u).id == before.id
  {
  }

  lemma {:induction false} LoadedId(r: IncidentRow)
    ensures FromRow(r).id == r.id && FromRow(r).closedAt == r.closedAt
  {
  }

  lemma {:induction false} PatchedIsTold(s: Sys, t: Sys, c: PatchCall)
    requires TablesOk(s) && Writes(s, c) && PatchedAlone(s, t, c)
    ensures PatchTold(s, t, c)
  {
    hide TablesOk, PatchPlan, ChangedFields, ApplyUpdate, FromRow, PatchPayloads, PatchAnnounced, InputApplied;
    PlanReads(s, c);
    IdsAreDrawn(s);
    var n := |s.outbox|;
    var plan := PatchPlan(s, c).value;
    var payloads := PatchPayloads(plan, FromRow(ApplyUpdate(s.incidents[c.id], plan.upd)));
    OneEventAtLeast(plan, FromRow(ApplyUpdate(s.incidents[c.id], plan.upd)));
    forall x | 0 <= x < |payloads|
      ensures Carries(t.outbox, n + x, c, payloads[x], CorrelationFor(c.correlation, s.nextId))
      ensures EventAt(t.outbox, n, payloads, x)
      ensures n + x in Elements(Positions(n, |payloads|))
    {
      assert Positions(n, |payloads|)[x] == n + x;
    }
    PayloadsRead(s, c, t.outbox);
    forall x | n <= x < |t.outbox|
      ensures x in t.visible && Emitted(t.outbox[x], c.who, c.tenant, c.id, CorrelationFor(c.correlation, s.nextId))
    {
      assert Carries(t.outbox, n + (x - n), c, payloads[x - n], CorrelationFor(c.correlation, s.nextId));
    }
  }

  lemma {:induction false} OneEventAtLeast(plan: Plan, after: Incident)
    ensures |PatchPayloads(plan, after)| >= 1
  {
  }

  lemma {:induction false} IdsAreDrawn(s: Sys)
    requires TablesOk(s)
    ensures s.nextId > NIL_UUID
  {
    hide OutboxOk, OpensOk, PlannedOk, RowsFromThePast, HistoryOk;
  }
}
