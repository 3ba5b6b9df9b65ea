/** The incident service: Create and Patch, each in one transaction, any call of which may fail. */
module Service {
  import opened Prelude
  import opened Lifecycle
  import opened Domain
  import opened Auth
  import opened Outbox
  import opened Machine
  import opened Tables
  import opened Delivery
  import opened Conservation
  import opened Guarantees
  import opened Serial
  import opened Requests
  import opened Database

  /** The database calls a request makes. */
  datatype Call = BeginTx | InsertRow | ReadRow | UpdateRow | RereadRow | InsertAudit
                | EnqueueMain | EnqueueStatusChanged | EnqueueClosed | CommitTx

  const CREATE_CALLS: set<Call> := {BeginTx, InsertRow, InsertAudit, EnqueueMain, CommitTx}

  /** All or nothing: a refused request leaves at most its denial. */
  ghost predicate NothingWritten(s: Sys, t: Sys, allowed: bool) {
    if allowed then
      Unseen(s, t)
    else
      && Unseen(s, t.(audit := s.audit))
      && s.audit <= t.audit && |t.audit| <= |s.audit| + 1
      && forall x :: |s.audit| <= x < |t.audit| ==> t.audit[x].result == Refused
  }

  class Service {
    const store: Store

    constructor (store: Store)
      ensures this.store == store
    {
      this.store := store;
    }

    /** The correlation id the request carries, or a fresh one. */
    method Correlation(given: Uuid) returns (c: Uuid)
      modifies store`nextId
      ensures c == CorrelationFor(given, old(store.nextId))
      ensures store.nextId == AfterCorrelation(given, old(store.nextId))
      ensures given != NIL_UUID ==> c == given && store.nextId == old(store.nextId)
      ensures given == NIL_UUID ==> c == old(store.nextId) && store.nextId == c + 1
    {
      c := given;
      if given == NIL_UUID {
        c := store.NewId();
      }
    }

    /** The audit recorder's row; uuid.Nil leaves the correlation id out. */
    method AuditRecord(tenant: Uuid, who: Principal, action: AuditAction, target: Option<Uuid>, result: AuditResult,
                       correlation: Uuid) returns (a: AuditRow)
      modifies store`clock, store`nextId
      ensures a == AuditRow(old(store.nextId), tenant, old(store.clock), who, action, target, result,
                            RecordedCorrelation(correlation))
      ensures store.clock == old(store.clock) + 1 && store.nextId == old(store.nextId) + 1
    {
      var recorded: Option<Uuid> := None;
      if correlation != NIL_UUID {
        recorded := Some(correlation);
      }
      var id := store.NewId();
      var now := store.Now();
      a := AuditRow(id, tenant, now, who, action, target, result, recorded);
    }

    /** The denial of an unauthorized request, kept even though the request fails. */
    method RecordDenial(tenant: Uuid, who: Principal, denied: AuditAction, target: Option<Uuid>, correlation: Uuid,
                        fails: bool)
      requires store.Valid() && Quiet(store.shadow) && store.stagedRow.None?
      modifies store
      ensures store.Valid() && Quiet(store.shadow) && store.stagedRow.None?
      ensures NothingWritten(old(store.shadow), store.shadow, false)
      ensures !fails ==>
                && |store.audit| == |old(store.audit)| + 1 && old(store.audit) <= store.audit
                && DenialTold(store.audit[|old(store.audit)|], who, tenant, denied, target, correlation)
      ensures fails ==> store.audit == old(store.audit)
    {
      hide Exec, Init;
      ghost var s := store.shadow;
      var a := AuditRecord(tenant, who, denied, target, Refused, correlation);
      store.InsertDenial(a, Deny(who, tenant, denied, target, correlation), fails);
    }

    /** Builds the envelope of one event and inserts its outbox row. */
    method EnqueueEvent(payload: Payload, who: Principal, correlation: Uuid, fails: bool) returns (ok: bool)
      requires store.Valid() && store.stagedRow.Some? && store.stagedAudit.Some?
      requires
        var o := store.shadow.open[store.stagedRow.value.id];
        o.todo != [] && o.todo[0] == Fresh(payload) && o.who == who && o.correlation == correlation
      modifies store
      ensures store.Valid() && store.stagedRow == old(store.stagedRow) && store.stagedAudit == old(store.stagedAudit)
      ensures ok == !fails
      ensures ok ==> store.shadow == DoEnqueue(old(store.shadow), store.stagedRow.value.id)
      ensures ok ==> store.trace == old(store.trace) + [Enqueue(store.stagedRow.value.id)]
      ensures Unseen(old(store.shadow), store.shadow) && store.shadow.planned == old(store.shadow).planned
      ensures ok ==>
                var before := old(store.shadow.open[store.stagedRow.value.id]);
                var i := store.stagedRow.value.id;
                && i in store.shadow.open
                && store.shadow.open[i] == before.(todo := before.todo[1..], staged := store.shadow.open[i].staged)
    {
      hide Exec, Init, TablesOk, DeliveryOk, CountsOk, Unseen;
      FreshIds();
      var row := store.stagedRow.value;
      var id := store.NewId();
      var now := store.Now();
      var env := Envelope(id, row.tenant, who, row.id, payload, correlation, now);
      ok := store.Enqueue(OutboxRow(id, row.tenant, now, WellFormed(env)), fails);
    }

    /** Ids in the outbox were all drawn before. */
    lemma FreshIds()
      requires store.Traced()
      ensures TablesOk(store.shadow)
      ensures forall k :: 0 <= k < |store.shadow.outbox| ==> store.shadow.outbox[k].eventId < store.shadow.nextId
    {
      hide Exec, Init, OpensOk, PlannedOk, HistoryOk, RowsFromThePast, OutboxOk, DeliveryOk, CountsOk;
      ReachableIsSound(store.trace);
      OutboxBounds(store.shadow);
    }

    /** Compares the input with the row read, field by field. */
    method ComputePlan(prior: Incident, p: PatchInput, accepted: bool) returns (r: Result<Plan, Error>)
      modifies store`clock
      ensures r == PlanPatch(prior, p, accepted, old(store.clock), old(store.clock) + 1)
      ensures store.clock >= old(store.clock)
      ensures r.Ok? ==> store.clock == old(store.clock) + if p.status == Some(Closed) then 2 else 1
    {
      hide CanTransition;
      var now := store.Now();
      var upd := IncidentUpdate(None, None, None, None, None, None, None, None, now);
      var changed: seq<Field> := [];
      var status: Option<Change> := None;
      if p.title.Some? && p.title.value != prior.title {
        upd := upd.(title := p.title);
        changed := changed + [TitleField];
      }
      if p.description.Some? {
        upd := upd.(description := p.description);
        changed := changed + [DescriptionField];
      }
      if p.severity.Some? {
        if !p.severity.value.IsValid() {
          return Err(InvalidInput);
        }
        upd := upd.(severity := p.severity);
        changed := changed + [SeverityField];
      }
      ghost var title := if TitleDiffers(prior, p) then p.title else None;
      ghost var f3 := List(List(List([], TitleDiffers(prior, p), TitleField), p.description.Some?, DescriptionField),
                           p.severity.Some?, SeverityField);
      assert changed == f3 && upd == IncidentUpdate(title, p.description, p.severity, None, None, None, None, None, now);
      if p.status.Some? {
        if !p.status.value.IsValid() {
          return Err(InvalidInput);
        }
        if !CanTransition(prior.status, p.status.value) {
          return Err(InvalidTransition);
        }
        upd := upd.(status := p.status);
        changed := changed + [StatusField];
        status := Some(Change(prior.status, p.status.value));
        if p.status.value == Closed {
          var closedAt := store.Now();
          upd := upd.(closedAt := Some(closedAt));
        }
      }
      var rest, more := Remaining(prior, p, accepted, upd, changed);
      if rest.None? {
        return Err(InvalidInput);
      }
      return Ok(Plan(rest.value, more, status));
    }

    /** The fields after the status: assignee, attributes and tags. None when the attributes are refused. */
    method Remaining(prior: Incident, p: PatchInput, accepted: bool, upd0: IncidentUpdate, changed0: seq<Field>)
      returns (r: Option<IncidentUpdate>, changed: seq<Field>)
      requires upd0.assignee == None && upd0.attributes == None && upd0.tags == None
      ensures r.None? <==> p.attributes.Some? && !accepted
      ensures r.Some? ==>
                && r.value == upd0.(assignee := p.assignee, attributes := p.attributes,
                                    tags := if TagsDiffer(prior, p) then p.tags else None)
                && changed == List(List(List(changed0, p.assignee.Some?, AssigneeField),
                                        p.attributes.Some?, AttributesField),
                                   TagsDiffer(prior, p), TagsField)
    {
      var upd := upd0;
      changed := changed0;
      if p.assignee.Some? {
        upd := upd.(assignee := p.assignee);
        changed := changed + [AssigneeField];
      }
      if p.attributes.Some? {
        if !accepted {
          return None, changed;
        }
        upd := upd.(attributes := p.attributes);
        changed := changed + [AttributesField];
      }
      if p.tags.Some? {
        var same := StringSliceEqual(p.tags.value, prior.tags.GetOr([]));
        if !same {
          upd := upd.(tags := p.tags);
          changed := changed + [TagsField];
        }
      }
      return Some(upd), changed;
    }

    /**
     * Create: the incident row, its audit row and its created event, all or nothing.
     * `accepted` is the schema registry's verdict, `faults` the calls that fail.
     */
    method Create(c: CreateCall, accepted: bool, allowed: bool, faults: set<Call>) returns (r: Result<Incident, Error>)
      requires store.Valid() && Quiet(store.shadow) && store.stagedRow.None?
      modifies store
      ensures store.Valid() && Quiet(store.shadow) && store.stagedRow.None?
      ensures r.Ok? <==> && allowed && CreateAccepted(c.input) && accepted
                         && !old(ExternalTaken(store.incidents, c.input, c.tenant))
                         && BeginTx !in faults && InsertRow !in faults && InsertAudit !in faults
                         && EnqueueMain !in faults && CommitTx !in faults
      ensures r.Ok? ==> CreateTold(old(store.shadow), store.shadow, c, r.value)
      ensures r.Ok? ==> CreatedAlone(old(store.shadow), store.shadow, c)
      ensures r.Ok? ==> store.trace == old(store.trace) + CreateActions(old(store.shadow), c)
      ensures r.Err? ==> NothingWritten(old(store.shadow), store.shadow, allowed)
      ensures r.Err? ==>
                r.error == if !allowed then Error.Denied
                           else if !(CreateAccepted(c.input) && accepted) then InvalidInput
                           else Error.Storage
      ensures !allowed && BeginTx !in faults && InsertAudit !in faults && CommitTx !in faults ==>
                && |store.audit| == |old(store.audit)| + 1 && old(store.audit) <= store.audit
                && DenialTold(store.audit[|old(store.audit)|], c.who, c.tenant, CreateAction, None, c.correlation)
    {
      hide TablesOk, CreatedAlone, DenialTold, CreateTold, CreateAccepted, ValidCreate, ExternalTaken, Store.Valid,
           Store.Clashes, PreparedCreate, CreateActions, Unseen, NothingWritten;
      ghost var s := store.shadow;
      CreateAcceptedExactly(c.input);
      StaysUnseen(s);
      if !allowed {
        RecordDenial(c.tenant, c.who, CreateAction, None, c.correlation, BeginTx in faults || InsertAudit in faults
                                                                         || CommitTx in faults);
        return Err(Error.Denied);
      }
      Validation(c.input);
      if c.input.title == "" || !c.input.severity.IsValid() || !accepted {
        return Err(InvalidInput);
      }
      ClashMeansTaken(c);
      IdsOfStore();
      r := CreateAllowed(c, faults);
      if r.Ok? {
        CreatedIsTold(s, store.shadow, c, r.value);
      }
    }

    lemma StaysUnseen(s: Sys)
      ensures Unseen(s, s) && NothingWritten(s, s, true)
    {
    }

    lemma Validation(p: CreateInput)
      ensures ValidCreate(p) <==> p.title != "" && p.severity.IsValid()
    {
    }

    /** The unique index refuses exactly a taken external id. */
    lemma ClashMeansTaken(c: CreateCall)
      requires store.Valid()
      ensures store.Clashes(PreparedCreate(c, store.clock, store.nextId).row) <==>
              ExternalTaken(store.incidents, c.input, c.tenant)
      ensures store.clock == store.shadow.clock && store.nextId == store.shadow.nextId
    {
      hide Store.Traced, Store.Agrees;
      var row := PreparedCreate(c, store.clock, store.nextId).row;
      assert row.externalId == c.input.externalId && row.sourceConnector == c.input.sourceConnector
             && row.tenant == c.tenant;
    }

    lemma IdsOfStore()
      requires store.Valid()
      ensures TablesOk(store.shadow) && store.shadow.nextId > NIL_UUID
    {
      hide Exec, Init, TablesOk, DeliveryOk, CountsOk, Store.Agrees;
      ReachableIsSound(store.trace);
      IdsAreDrawn(store.shadow);
    }

    /** Create, once authorized and validated. */
    method CreateAllowed(c: CreateCall, faults: set<Call>) returns (r: Result<Incident, Error>)
      requires store.Valid() && Quiet(store.shadow) && store.stagedRow.None? && ValidCreate(c.input)
      modifies store
      ensures store.Valid() && Quiet(store.shadow) && store.stagedRow.None?
      ensures r.Ok? <==> CREATE_CALLS !! faults && !old(store.Clashes(PreparedCreate(c, store.clock, store.nextId).row))
      ensures r.Ok? ==> CreatedAlone(old(store.shadow), store.shadow, c)
      ensures r.Ok? ==> Created(r.value) == PreparedCreate(c, old(store.clock), old(store.nextId)).payloads[0]
      ensures r.Ok? ==> store.trace == old(store.trace) + CreateActions(old(store.shadow), c)
      ensures r.Err? ==> r.error == Error.Storage && NothingWritten(old(store.shadow), store.shadow, true)
    {
      hide Exec, Init, MarshalAttributes, TablesOk, DeliveryOk, CountsOk, CreatedAlone, Elements;
      var correlation := Correlation(c.correlation);
      var now := store.Now();
      var id := store.NewId();
      var inc := NewIncident(c.input, id, c.tenant, now);
      var eventId := store.NewId();
      var occurredAt := store.Now();
      var env := Envelope(eventId, c.tenant, c.who, id, Created(inc), correlation, occurredAt);
      var ok := WriteCreated(c, ToRow(inc, MarshalAttributes(c.input.attributes)), correlation,
                             OutboxRow(env.eventId, c.tenant, now, WellFormed(env)), faults);
      if !ok {
        return Err(Error.Storage);
      }
      return Ok(inc);
    }

    /** The transaction of Create: incident row, audit row, outbox row, commit. */
    method WriteCreated(c: CreateCall, row: IncidentRow, correlation: Uuid, event: OutboxRow, faults: set<Call>)
      returns (ok: bool)
      requires store.Traced() && store.Agrees() && Quiet(store.shadow) && store.stagedRow.None? && ValidCreate(c.input)
      requires
        var o := PreparedCreate(c, store.shadow.clock, store.shadow.nextId);
        && row == o.row && correlation == o.correlation && o.todo == [Ready(event)]
        && store.clock == store.shadow.clock + 2 && store.nextId == row.id + 2
      modifies store
      ensures store.Valid() && Quiet(store.shadow) && store.stagedRow.None?
      ensures ok <==> CREATE_CALLS !! faults && !old(store.Clashes(row))
      ensures ok ==> CreatedAlone(old(store.shadow), store.shadow, c)
      ensures ok ==> store.trace == old(store.trace) + CreateActions(old(store.shadow), c)
      ensures !ok ==> NothingWritten(old(store.shadow), store.shadow, true)
    {
      hide Exec, Init, TablesOk, DeliveryOk, CountsOk, CreatedAlone, PreparedCreate, AuditFor, RowFor, Unseen, CanCommit,
           DoOpenCreate, UniqueExternal, Store.Traced, Store.Clashes;
      ghost var s := store.shadow;
      FreshIds();
      PreparedFacts(c, s.clock, s.nextId);
      if BeginTx in faults {
        store.CatchUp();
        return false;
      }
      ok := store.Insert(row, c, InsertRow in faults);
      if !ok {
        store.CatchUp();
        return false;
      }
      ghost var s1 := store.shadow;
      ok := FinishCreated(c, row, correlation, event, faults, s);
      if !ok {
        UnseenTransitive(s, s1, store.shadow);
      }
    }

    /** The rest of Create's transaction, once the row is inserted. */
    method FinishCreated(c: CreateCall, row: IncidentRow, correlation: Uuid, event: OutboxRow, faults: set<Call>,
                         ghost s: Sys) returns (ok: bool)
      requires store.Valid() && store.stagedRow == Some(row)
      requires TablesOk(s) && Quiet(s) && store.shadow == DoOpenCreate(s, c) && UniqueExternal(s.incidents, row)
      requires
        var o := PreparedCreate(c, s.clock, s.nextId);
        row == o.row && correlation == o.correlation && o.todo == [Ready(event)]
      modifies store
      ensures store.Valid() && Quiet(store.shadow) && store.stagedRow.None?
      ensures ok <==> InsertAudit !in faults && EnqueueMain !in faults && CommitTx !in faults
      ensures ok ==> CreatedAlone(s, store.shadow, c)
      ensures ok ==> store.trace == old(store.trace) + [Record(row.id)] + [Enqueue(row.id)] + [Commit(row.id)]
      ensures !ok ==> Unseen(old(store.shadow), store.shadow)
    {
      hide Exec, Init, TablesOk, DeliveryOk, CountsOk, CreatedAlone, PreparedCreate, AuditFor, RowFor, Unseen, CanCommit,
           DoOpenCreate, DoRecord, DoEnqueue, DoCommit, UniqueExternal, Store.Traced;
      CreateIsNew(s, c);
      PreparedFacts(c, s.clock, s.nextId);
      CreateRecorded(s, c);
      CreateCommitted(s, c, AuditFor(PreparedCreate(c, s.clock, s.nextId), row.id + 2, s.clock + 2));
      ghost var s1 := store.shadow;
      var a := AuditRecord(c.tenant, c.who, CreateAction, Some(row.id), Success, correlation);
      ok := store.InsertAudit(a, InsertAudit in faults);
      ghost var s2 := store.shadow;
      if !ok {
        store.Rollback();
        UnseenTransitive(s1, s2, store.shadow);
        return false;
      }
      ok := store.Enqueue(event, EnqueueMain in faults);
      ghost var s3 := store.shadow;
      UnseenTransitive(s1, s2, s3);
      if !ok {
        store.Rollback();
        UnseenTransitive(s1, s3, store.shadow);
        return false;
      }
      ok := store.Commit(CommitTx in faults);
      if !ok {
        UnseenTransitive(s1, s3, store.shadow);
      }
    }

    /**
     * Patch: read the row, plan, and write the row, one audit row and one to three events,
     * all or nothing. With nothing to change it writes nothing and still succeeds.
     */
    method Patch(c: PatchCall, allowed: bool, faults: set<Call>) returns (r: Result<Incident, Error>)
      requires store.Valid() && Quiet(store.shadow) && store.stagedRow.None?
      modifies store
      ensures store.Valid() && Quiet(store.shadow) && store.stagedRow.None?
      ensures r.Ok? <==> allowed && old(PatchAccepted(store.incidents, c)) && Unhindered(old(store.incidents), c, faults)
      ensures r.Ok? && PatchChanges(old(store.incidents), c) ==> PatchTold(old(store.shadow), store.shadow, c)
      ensures r.Ok? && Writes(old(store.shadow), c) ==>
                && PatchChanges(old(store.incidents), c)
                && PatchedAlone(old(store.shadow), store.shadow, c)
                && store.trace == old(store.trace) + PatchActions(old(store.shadow), c)
      ensures r.Ok? && !PatchChanges(old(store.incidents), c) ==>
                Unseen(old(store.shadow), store.shadow) && store.outbox == old(store.outbox)
      ensures r.Ok? ==> c.id in store.incidents && Shows(r.value, store.incidents[c.id])
      ensures r.Err? ==> NothingWritten(old(store.shadow), store.shadow, allowed)
      ensures r.Err? ==>
                r.error == if !allowed then Error.Denied
                           else if BeginTx in faults || ReadRow in faults || old(PatchAccepted(store.incidents, c))
                             then Error.Storage
                           else PatchError(old(store.incidents), c)
      ensures !allowed && BeginTx !in faults && InsertAudit !in faults && CommitTx !in faults ==>
                && |store.audit| == |old(store.audit)| + 1 && old(store.audit) <= store.audit
                && DenialTold(store.audit[|old(store.audit)|], c.who, c.tenant, UpdateAction, Some(c.id), c.correlation)
    {
      hide Exec, Init, TablesOk, DeliveryOk, CountsOk, FromRow, PatchPlan, PatchedAlone, PatchActions, Unseen,
           PatchAccepted, PatchTold, PatchError, DenialTold, NamesSomething, Shows, Unhindered, Store.Valid, WritesSent;
      ghost var s := store.shadow;
      SameIncidents();
      if !allowed {
        RecordDenial(c.tenant, c.who, UpdateAction, Some(c.id), c.correlation,
                     BeginTx in faults || InsertAudit in faults || CommitTx in faults);
        return Err(Error.Denied);
      }
      IdsOfStore();
      PatchPlanExactly(s, c);
      UnhinderedExactly(s, c, faults);
      r := PatchAllowed(c, faults);
      if r.Ok? {
        LoadShows(store.incidents[c.id]);
        if Writes(s, c) {
          PatchedIsTold(s, store.shadow, c);
        }
      }
    }

    lemma SameIncidents()
      requires store.Valid()
      ensures store.shadow.incidents == store.incidents
    {
      hide Store.Traced;
    }

    /** None of the calls the request makes fails. */
    static ghost predicate Unhindered(incidents: map<Uuid, IncidentRow>, c: PatchCall, faults: set<Call>) {
      && BeginTx !in faults && ReadRow !in faults && CommitTx !in faults
      && (PatchChanges(incidents, c) ==>
            && UpdateRow !in faults && RereadRow !in faults && InsertAudit !in faults && EnqueueMain !in faults
            && (EventsOfPatch(incidents[c.id], c.input) > 1 ==> EnqueueStatusChanged !in faults)
            && (EventsOfPatch(incidents[c.id], c.input) > 2 ==> EnqueueClosed !in faults))
    }

    static lemma UnhinderedExactly(s: Sys, c: PatchCall, faults: set<Call>)
      requires TablesOk(s)
      ensures PatchAccepted(s.incidents, c) ==>
                (Unhindered(s.incidents, c, faults) <==>
                  && BeginTx !in faults && ReadRow !in faults && CommitTx !in faults
                  && (Writes(s, c) ==> WritesSent(PatchPlan(s, c).value, faults)))
    {
      hide TablesOk, PatchPlan, PatchAccepted, NamesSomething, ApplyUpdate, ChangedFields, FromRow, InputApplied;
      PatchPlanExactly(s, c);
      if Writes(s, c) {
        PlanReads(s, c);
      }
    }

    /** The transaction of an authorized Patch. */
    method PatchAllowed(c: PatchCall, faults: set<Call>) returns (r: Result<Incident, Error>)
      requires store.Valid() && Quiet(store.shadow) && store.stagedRow.None?
      modifies store
      ensures store.Valid() && Quiet(store.shadow) && store.stagedRow.None?
      ensures r.Ok? <==>
              && PatchPlan(old(store.shadow), c).Ok? && BeginTx !in faults && ReadRow !in faults && CommitTx !in faults
              && (Writes(old(store.shadow), c) ==> WritesSent(PatchPlan(old(store.shadow), c).value, faults))
      ensures r.Ok? && Writes(old(store.shadow), c) ==>
                && PatchedAlone(old(store.shadow), store.shadow, c)
                && store.trace == old(store.trace) + PatchActions(old(store.shadow), c)
      ensures r.Ok? && !Writes(old(store.shadow), c) ==>
                Unseen(old(store.shadow), store.shadow) && store.outbox == old(store.outbox)
      ensures r.Ok? ==> c.id in store.incidents && r.value == FromRow(store.incidents[c.id])
      ensures r.Err? ==> Unseen(old(store.shadow), store.shadow)
      ensures r.Err? && PatchPlan(old(store.shadow), c).Err? && BeginTx !in faults && ReadRow !in faults ==>
                r.error == PatchPlan(old(store.shadow), c).error
      ensures r.Err? && (PatchPlan(old(store.shadow), c).Ok? || BeginTx in faults || ReadRow in faults) ==>
                r.error == Error.Storage
    {
      hide Exec, Init, TablesOk, DeliveryOk, CountsOk, FromRow, PlanPatch, PatchedAlone, PatchActions, Unseen,
           PatchTxFor, Store.Traced, EventCount, WritesSent, Enqueues;
      ghost var s := store.shadow;
      FreshIds();
      ItsRun();
      var correlation := Correlation(c.correlation);
      if BeginTx in faults {
        store.CatchUp();
        return Err(Error.Storage);
      }
      var prior := store.GetByID(c.tenant, c.id, ReadRow in faults);
      if prior.Err? {
        store.CatchUp();
        return Err(prior.error);
      }
      var plan := ComputePlan(FromRow(prior.value), c.input, c.accepted);
      if plan.Err? {
        store.CatchUp();
        return Err(plan.error);
      }
      if plan.value.changed == [] {
        store.CatchUp();
        if CommitTx in faults {
          return Err(Error.Storage);
        }
        return Ok(FromRow(prior.value));
      }
      ReadPriorStep(s, c);
      store.Take(ReadPrior(c));
      ghost var s1 := store.shadow;
      r := WritePlanned(c, plan.value, correlation, faults, s);
      ItsRun();
      if r.Ok? {
        PatchRun(s, c, old(store.trace), store.trace);
      } else {
        UnseenTransitive(s, s1, store.shadow);
      }
    }

    /** The run in `trace` leads to the machine state. */
    lemma ItsRun()
      requires store.Traced()
      ensures Exec(Init(), store.trace) == Some(store.shadow)
    {
      hide Exec, Init;
    }

    /** The steps taken are those of a Patch alone. */
    lemma PatchRun(s: Sys, c: PatchCall, before: seq<Action>, after: seq<Action>)
      requires Exec(Init(), before) == Some(s) && Quiet(s) && Writes(s, c)
      requires Exec(Init(), after).Some?
      requires after == before + [ReadPrior(c)] + [Lock(PatchTxFor(s, c))] + [Record(c.id)]
                        + Enqueues(c.id, EventCount(PatchPlan(s, c).value)) + [Commit(c.id)]
      ensures after == before + PatchActions(s, c)
      ensures PatchedAlone(s, Exec(Init(), after).value, c)
    {
      hide Exec, Init, TablesOk, DeliveryOk, CountsOk, PatchedAlone, PatchPlan, PatchTxFor, Writes, EventCount, Enqueues;
      ReachableIsSound(before);
      PatchAlone(s, c);
      assert after == before + PatchActions(s, c);
      ExecConcat(Init(), before, PatchActions(s, c));
    }

    /** The UPDATE, the re-read, the audit row, the events and the commit of one Patch. */
    method WritePlanned(c: PatchCall, plan: Plan, correlation: Uuid, faults: set<Call>, ghost s: Sys)
      returns (r: Result<Incident, Error>)
      requires store.Valid() && store.stagedRow.None?
      requires TablesOk(s) && Quiet(s) && Writes(s, c) && store.shadow == DoReadPrior(s, c)
      requires plan == PatchPlan(s, c).value && correlation == CorrelationFor(c.correlation, s.nextId)
      modifies store
      ensures store.Valid() && Quiet(store.shadow) && store.stagedRow.None?
      ensures r.Ok? <==> WritesSent(plan, faults) && CommitTx !in faults
      ensures r.Ok? ==>
                store.trace == old(store.trace) + [Lock(PatchTxFor(s, c))] + [Record(c.id)]
                               + Enqueues(c.id, EventCount(plan)) + [Commit(c.id)]
      ensures r.Ok? ==> c.id in store.incidents && r.value == FromRow(store.incidents[c.id])
      ensures r.Err? ==> r.error == Error.Storage && Unseen(old(store.shadow), store.shadow)
    {
      hide Exec, Init, TablesOk, DeliveryOk, CountsOk, FromRow, PlanPatch, Unseen, EventCount, Store.Traced, DoRecord,
           DoLock, DoReadPrior, AuditFor, ApplyUpdate, PatchTxFor, Writes, PatchPlan, Holder, EventsSent, DoCommit,
           CanCommit, PatchPayloads, Enqueues;
      ghost var tx := PatchTxFor(s, c);
      ghost var s1 := store.shadow;
      UpdateFacts(s, c);
      var ok := store.Update(tx, c.id, plan.upd, UpdateRow in faults);
      ghost var s2 := store.shadow;
      if !ok {
        return Err(Error.Storage);
      }
      var after := store.GetByID(c.tenant, c.id, RereadRow in faults);
      if after.Err? {
        store.Rollback();
        UnseenTransitive(s1, s2, store.shadow);
        return Err(Error.Storage);
      }
      var updated := FromRow(after.value);
      ok := FinishPlanned(c, plan, updated, correlation, faults, s);
      if !ok {
        UnseenTransitive(s1, s2, store.shadow);
        return Err(Error.Storage);
      }
      return Ok(updated);
    }

    /** The audit row, the events and the commit of one Patch. */
    method FinishPlanned(c: PatchCall, plan: Plan, updated: Incident, correlation: Uuid, faults: set<Call>,
                         ghost s: Sys) returns (ok: bool)
      requires TablesOk(s) && Quiet(s) && Writes(s, c)
      requires store.Valid() && store.shadow == DoLock(DoReadPrior(s, c), PatchTxFor(s, c))
      requires plan == PatchPlan(s, c).value && correlation == CorrelationFor(c.correlation, s.nextId)
      requires store.stagedRow == Some(ApplyUpdate(s.incidents[c.id], plan.upd))
      requires updated == FromRow(store.stagedRow.value)
      modifies store
      ensures store.Valid() && Quiet(store.shadow) && store.stagedRow.None?
      ensures ok <==> InsertAudit !in faults && EventsSent(plan, faults) && CommitTx !in faults
      ensures ok ==> store.trace == old(store.trace) + [Record(c.id)] + Enqueues(c.id, EventCount(plan)) + [Commit(c.id)]
      ensures ok ==> store.incidents == old(store.incidents)[c.id := old(store.stagedRow).value]
      ensures !ok ==> Unseen(old(store.shadow), store.shadow)
    {
      hide Exec, Init, TablesOk, DeliveryOk, CountsOk, FromRow, PlanPatch, Unseen, EventCount, Store.Traced, DoRecord,
           DoLock, DoReadPrior, AuditFor, ApplyUpdate, PatchTxFor, Writes, PatchPlan, Holder, EventsSent, DoCommit,
           CanCommit, PatchPayloads, Enqueues, ReadyToSend;
      UpdateFacts(s, c);
      ghost var s2 := store.shadow;
      var action := UpdateAction;
      if plan.StatusChanged() {
        action := StatusChangeAction;
      }
      var a := AuditRecord(c.tenant, c.who, action, Some(c.id), Success, correlation);
      ok := store.InsertAudit(a, InsertAudit in faults);
      ghost var s3 := store.shadow;
      if !ok {
        store.Rollback();
        UnseenTransitive(s2, s3, store.shadow);
        return;
      }
      ok := SendEvents(plan, updated, c.who, correlation, faults);
      ghost var s4 := store.shadow;
      UnseenTransitive(s2, s3, s4);
      if !ok {
        store.Rollback();
        UnseenTransitive(s2, s4, store.shadow);
        return;
      }
      FreshIds();
      CanCommitPatch(s4, c.id);
      ok := store.Commit(CommitTx in faults);
      if !ok {
        UnseenTransitive(s2, s4, store.shadow);
      }
    }

    /** incident.updated always; status_changed on a real change; closed on a change to closed. */
    method SendEvents(plan: Plan, updated: Incident, who: Principal, correlation: Uuid, faults: set<Call>)
      returns (ok: bool)
      requires store.Valid() && store.stagedRow.Some? && store.stagedAudit.Some?
      requires ReadyToSend(store.shadow, store.stagedRow.value.id, PatchPayloads(plan, updated))
      requires
        var o := store.shadow.open[store.stagedRow.value.id];
        o.who == who && o.correlation == correlation
      modifies store
      ensures store.Valid() && store.stagedRow == old(store.stagedRow) && store.stagedAudit == old(store.stagedAudit)
      ensures ok <==> EventsSent(plan, faults)
      ensures Unseen(old(store.shadow), store.shadow) && store.shadow.planned == old(store.shadow).planned
      ensures ok ==>
                var i := store.stagedRow.value.id;
                && i in store.shadow.open && store.shadow.open[i].todo == []
                && store.shadow.open[i].plan == old(store.shadow).open[i].plan
                && store.trace == old(store.trace) + Enqueues(i, EventCount(plan))
    {
      hide Exec, Init, Unseen, DoEnqueue, Store.Traced;
      ghost var s := store.shadow;
      ghost var i := store.stagedRow.value.id;
      ghost var payloads := PatchPayloads(plan, updated);
      EnqueuesUpToThree(i);
      ok := EnqueueEvent(Updated(plan.changed, updated), who, correlation, EnqueueMain in faults);
      if !ok {
        return;
      }
      if plan.StatusChanged() {
        assert payloads[1] == StatusChanged(plan.status.value.from, plan.status.value.to, updated.id);
        ghost var s1 := store.shadow;
        ok := EnqueueEvent(StatusChanged(plan.status.value.from, plan.status.value.to, updated.id), who, correlation,
                           EnqueueStatusChanged in faults);
        UnseenTransitive(s, s1, store.shadow);
        if !ok {
          return;
        }
        if plan.status.value.to == Closed {
          assert payloads[2] == IncidentClosed(updated.id, updated.closedAt, Closed);
          ghost var s2 := store.shadow;
          ok := EnqueueEvent(IncidentClosed(updated.id, updated.closedAt, Closed), who, correlation,
                             EnqueueClosed in faults);
          UnseenTransitive(s, s2, store.shadow);
        }
      }
    }

    /** No statement between the plan and the commit fails. */
    static predicate WritesSent(plan: Plan, faults: set<Call>) {
      && UpdateRow !in faults && RereadRow !in faults && InsertAudit !in faults
      && EventsSent(plan, faults)
    }

    /** No insert of an event of this plan fails. */
    static predicate EventsSent(plan: Plan, faults: set<Call>) {
      && EnqueueMain !in faults
      && (plan.StatusChanged() ==>
            && EnqueueStatusChanged !in faults
            && (plan.status.value.to == Closed ==> EnqueueClosed !in faults))
    }
  }

  /** The state from which a Patch sends its events. */
  ghost predicate ReadyToSend(s: Sys, i: Uuid, payloads: seq<Payload>) {
    && i in s.open && s.open[i].audit.Some?
    && |s.open[i].todo| == |payloads|
    && forall x :: 0 <= x < |payloads| ==> s.open[i].todo[x] == Fresh(payloads[x])
  }

  lemma {:induction false} EnqueuesUpToThree(i: Uuid)
    ensures Enqueues(i, 1) == [Enqueue(i)]
    ensures Enqueues(i, 2) == [Enqueue(i)] + [Enqueue(i)]
    ensures Enqueues(i, 3) == [Enqueue(i)] + [Enqueue(i)] + [Enqueue(i)]
  {
    assert Enqueues(i, 0) == [];
    assert Enqueues(i, 1) == Enqueues(i, 0) + [Enqueue(i)];
    assert Enqueues(i, 2) == Enqueues(i, 1) + [Enqueue(i)];
  }

  /** A Patch that is going to write may take its first step. */
  lemma {:induction false} ReadPriorStep(s: Sys, c: PatchCall)
    requires Writes(s, c)
    ensures Enabled(s, ReadPrior(c)) && Apply(s, ReadPrior(c)) == DoReadPrior(s, c)
    ensures Unseen(s, DoReadPrior(s, c))
  {
    hide Writes, PatchTxFor;
  }

  /** What each statement of a Patch meets. */
  lemma {:induction false} UpdateFacts(s: Sys, c: PatchCall)
    requires TablesOk(s) && Quiet(s) && Writes(s, c)
    ensures
      var plan := PatchPlan(s, c).value;
      var tx := PatchTxFor(s, c);
      var s1 := DoReadPrior(s, c);
      && c.id in s.incidents && s.incidents[c.id].id == c.id
      && s1.planned == {tx} && s1.incidents == s.incidents && s1.open == map[]
      && tx.id == c.id && tx.plan == plan
      && var s2 := DoLock(s1, tx);
         var row := ApplyUpdate(s.incidents[c.id], plan.upd);
         && s2.planned == {} && row.id == c.id && row.tenant == c.tenant
         && c.id in s2.open && s2.open[c.id].audit.None?
         && AuditFor(s2.open[c.id], s2.nextId, s2.clock) ==
            AuditRow(s2.nextId, c.tenant, s2.clock, c.who,
                     if plan.StatusChanged() then StatusChangeAction else UpdateAction, Some(c.id), Success,
                     RecordedCorrelation(CorrelationFor(c.correlation, s.nextId)))
         && var s3 := DoRecord(s2, c.id);
            && ReadyToSend(s3, c.id, PatchPayloads(plan, FromRow(row)))
            && s3.open[c.id].who == c.who
            && s3.open[c.id].correlation == CorrelationFor(c.correlation, s.nextId)
            && s3.open[c.id].plan.Some?
  {
    hide OutboxOk, OpensOk, PlannedOk, RowsFromThePast, HistoryOk, PlanPatch, FromRow, PatchPayloads;
    PlanNamesIncident(s, c);
    IncidentInHistory(s, c.id);
    assert {PatchTxFor(s, c)} - {PatchTxFor(s, c)} == {};
  }

  /** Element by element equality. */
  method StringSliceEqual(a: seq<string>, b: seq<string>) returns (same: bool)
    ensures same <==> a == b
  {
    if |a| != |b| {
      return false;
    }
    var i := 0;
    while i < |a|
      invariant 0 <= i <= |a|
      invariant a[..i] == b[..i]
    {
      if a[i] != b[i] {
        return false;
      }
      i := i + 1;
    }
    return true;
  }
}
