/**
 * The whole system as a step machine: transactions one statement at a time, the
 * relay one row at a time, and the bus. Every interleaving is a list of actions.
 */
module Machine {
  import opened Prelude
  import opened Lifecycle
  import opened Domain
  import opened Auth
  import opened Outbox

  datatype AuditAction = CreateAction | UpdateAction | StatusChangeAction

  datatype AuditResult = Success | Refused | Failed

  datatype AuditRow = AuditRow(
    id: Uuid, tenant: Uuid, occurredAt: Time, actor: Principal, action: AuditAction,
    target: Option<Uuid>, result: AuditResult, correlation: Option<Uuid>)

  /** An outbox row a transaction still has to insert. Create stamps its row early, Patch at the insert. */
  datatype Draft = Ready(row: OutboxRow) | Fresh(payload: Payload)

  /**
   * An open transaction that holds the row lock of one incident. `row` is the row it
   * wrote, `payloads` all the events it is going to write, `staged` the positions of
   * the outbox rows inserted so far. `plan` is None for Create.
   */
  datatype Open = Open(
    row: IncidentRow, who: Principal, correlation: Uuid, plan: Option<Plan>, payloads: seq<Payload>,
    audit: Option<AuditRow>, staged: seq<nat>, todo: seq<Draft>)

  /** A Patch between its plain read of the row and its UPDATE: it holds no lock. */
  datatype PatchTx = PatchTx(id: Uuid, who: Principal, correlation: Uuid, plan: Plan)

  /** The arguments of one Patch call; `accepted` is the schema registry's verdict. */
  datatype PatchCall = PatchCall(
    who: Principal, tenant: Uuid, id: Uuid, input: PatchInput, accepted: bool, correlation: Uuid)

  datatype CreateCall = CreateCall(who: Principal, tenant: Uuid, input: CreateInput, correlation: Uuid)

  /** What one commit on an incident wrote; kept as history, no code reads it. */
  datatype Entry = Entry(row: IncidentRow, audit: AuditRow, events: seq<Envelope>, plan: Option<Plan>)

  /**
   * `outbox` holds every row ever inserted, also those of open and rolled-back
   * transactions; `visible` are the positions of the committed ones; `published`
   * is the published_at column. `open` is the table of row locks. `batch` and
   * `marking` are the relay's local state. `log`, `calls` and `badMarks` are history.
   */
  datatype Sys = Sys(
    incidents: map<Uuid, IncidentRow>,
    audit: seq<AuditRow>,
    outbox: seq<OutboxRow>,
    visible: set<nat>,
    published: map<nat, Time>,
    clock: Time,
    nextId: Uuid,
    planned: set<PatchTx>,
    open: map<Uuid, Open>,
    batch: seq<nat>,
    marking: Option<nat>,
    bus: seq<Envelope>,
    log: map<Uuid, seq<Entry>>,
    calls: multiset<nat>,
    badMarks: multiset<nat>)

  datatype Action =
    | Tick(dt: nat, di: nat)
    | Deny(who: Principal, tenant: Uuid, denied: AuditAction, target: Option<Uuid>, correlation: Uuid)
    | OpenCreate(create: CreateCall)
    | ReadPrior(patch: PatchCall)
    | Lock(tx: PatchTx)
    | Record(id: Uuid)
    | Enqueue(id: Uuid)
    | Commit(id: Uuid)
    | Abort(id: Uuid)
    | Forget(tx: PatchTx)
    | InsertMalformed(tenant: Uuid)
    | Fetch(rows: seq<nat>)
    | Skip
    | Publish(ok: bool, copies: nat)
    | Mark(ok: bool)
    | Restart

  const BATCH: nat := 100

  ghost function Init(): Sys {
    Sys(map[], [], [], {}, map[], 1, 1, {}, map[], [], None, [], map[], multiset{}, multiset{})
  }

  /** uuid.Nil asks for a generated correlation id. */
  function CorrelationFor(given: Uuid, nextId: Uuid): Uuid {
    if given == NIL_UUID then nextId else given
  }

  function AfterCorrelation(given: Uuid, nextId: Uuid): Uuid {
    if given == NIL_UUID then nextId + 1 else nextId
  }

  /** uuid.Nil is left out of the audit row. */
  function RecordedCorrelation(c: Uuid): Option<Uuid> {
    if c == NIL_UUID then None else Some(c)
  }

  function AuditActionFor(plan: Option<Plan>): AuditAction {
    if plan.None? then CreateAction else if plan.value.StatusChanged() then StatusChangeAction else UpdateAction
  }

  /** The events of one Patch: updated always, status_changed on a real change, closed on a change to closed. */
  function PatchPayloads(plan: Plan, after: Incident): seq<Payload> {
    [Updated(plan.changed, after)]
    + (if plan.StatusChanged() then
         [StatusChanged(plan.status.value.from, plan.status.value.to, after.id)]
         + (if plan.status.value.to == Closed then [IncidentClosed(after.id, after.closedAt, Closed)] else [])
       else [])
  }

  // ---- the service's transactions ----

  /** The row and the outbox row Create prepares before it opens its transaction. */
  function PreparedCreate(c: CreateCall, clock: Time, nextId: Uuid): Open {
    var correlation := CorrelationFor(c.correlation, nextId);
    var id := AfterCorrelation(c.correlation, nextId);
    var i := NewIncident(c.input, id, c.tenant, clock);
    var env := Envelope(id + 1, c.tenant, c.who, id, Created(i), correlation, clock + 1);
    Open(ToRow(i, MarshalAttributes(c.input.attributes)), c.who, correlation, None, [Created(i)], None, [],
         [Ready(OutboxRow(env.eventId, c.tenant, clock, WellFormed(env)))])
  }

  function DoOpenCreate(s: Sys, c: CreateCall): Sys {
    var o := PreparedCreate(c, s.clock, s.nextId);
    s.(open := s.open[o.row.id := o], clock := s.clock + 2, nextId := o.row.id + 2)
  }

  function PatchPlan(s: Sys, p: PatchCall): Result<Plan, Error> {
    if p.id !in s.incidents || s.incidents[p.id].tenant != p.tenant then
      Err(NotFound)
    else
      PlanPatch(FromRow(s.incidents[p.id]), p.input, p.accepted, s.clock, s.clock + 1)
  }

  /** A Patch that gets as far as its UPDATE. */
  predicate Writes(s: Sys, p: PatchCall) {
    PatchPlan(s, p).Ok? && PatchPlan(s, p).value.changed != []
  }

  function PatchTxFor(s: Sys, p: PatchCall): PatchTx
    requires Writes(s, p)
  {
    PatchTx(p.id, p.who, CorrelationFor(p.correlation, s.nextId), PatchPlan(s, p).value)
  }

  function DoReadPrior(s: Sys, p: PatchCall): Sys
    requires Writes(s, p)
  {
    s.(planned := s.planned + {PatchTxFor(s, p)},
       clock := s.clock + (if p.input.status == Some(Closed) then 2 else 1),
       nextId := AfterCorrelation(p.correlation, s.nextId))
  }

  function LockedBy(tx: PatchTx, current: IncidentRow): Open {
    var row := ApplyUpdate(current, tx.plan.upd);
    var payloads := PatchPayloads(tx.plan, FromRow(row));
    Open(row, tx.who, tx.correlation, Some(tx.plan), payloads, None, [],
         seq(|payloads|, x requires 0 <= x < |payloads| => Fresh(payloads[x])))
  }

  /** The UPDATE: it waits for the row lock, then applies to the row as it now stands. */
  function DoLock(s: Sys, tx: PatchTx): Sys
    requires tx.id in s.incidents
  {
    s.(planned := s.planned - {tx}, open := s.open[tx.id := LockedBy(tx, s.incidents[tx.id])])
  }

  function AuditFor(o: Open, id: Uuid, at: Time): AuditRow {
    AuditRow(id, o.row.tenant, at, o.who, AuditActionFor(o.plan), Some(o.row.id), Success,
             RecordedCorrelation(o.correlation))
  }

  function DoRecord(s: Sys, i: Uuid): Sys
    requires i in s.open
  {
    var o := s.open[i];
    s.(open := s.open[i := o.(audit := Some(AuditFor(o, s.nextId, s.clock)))],
       clock := s.clock + 1, nextId := s.nextId + 1)
  }

  function RowFor(s: Sys, o: Open): OutboxRow
    requires o.todo != []
  {
    match o.todo[0]
    case Ready(row) => row
    case Fresh(payload) =>
      OutboxRow(s.nextId, o.row.tenant, s.clock,
                WellFormed(Envelope(s.nextId, o.row.tenant, o.who, o.row.id, payload, o.correlation, s.clock)))
  }

  function DoEnqueue(s: Sys, i: Uuid): Sys
    requires i in s.open && s.open[i].todo != []
  {
    var o := s.open[i];
    var step := if o.todo[0].Fresh? then 1 else 0;
    s.(outbox := s.outbox + [RowFor(s, o)],
       open := s.open[i := o.(staged := o.staged + [|s.outbox|], todo := o.todo[1..])],
       clock := s.clock + step, nextId := s.nextId + step)
  }

  ghost predicate StagedOk(outbox: seq<OutboxRow>, o: Open) {
    forall x :: 0 <= x < |o.staged| ==> o.staged[x] < |outbox| && outbox[o.staged[x]].body.WellFormed?
  }

  function DoCommit(s: Sys, i: Uuid): Sys
    requires i in s.open && s.open[i].audit.Some? && StagedOk(s.outbox, s.open[i])
  {
    var o := s.open[i];
    var entry := Entry(o.row, o.audit.value, EnvelopesAt(s.outbox, o.staged), o.plan);
    s.(incidents := s.incidents[i := o.row],
       audit := s.audit + [o.audit.value],
       visible := s.visible + Elements(o.staged),
       open := s.open - {i},
       log := s.log[i := (if i in s.log then s.log[i] else []) + [entry]])
  }

  /** The partial unique index on (tenant, source connector, external id); NULLs never clash. */
  ghost predicate UniqueExternal(incidents: map<Uuid, IncidentRow>, r: IncidentRow) {
    r.externalId.Some? && r.sourceConnector.Some? ==>
      forall j :: j in incidents ==>
        !(incidents[j].tenant == r.tenant && incidents[j].sourceConnector == r.sourceConnector
          && incidents[j].externalId == r.externalId)
  }

  function DoDeny(s: Sys, a: Action): Sys
    requires a.Deny?
  {
    s.(audit := s.audit + [AuditRow(s.nextId, a.tenant, s.clock, a.who, a.denied, a.target, Refused,
                                    RecordedCorrelation(a.correlation))],
       clock := s.clock + 1, nextId := s.nextId + 1)
  }

  function DoInsertMalformed(s: Sys, tenant: Uuid): Sys {
    s.(outbox := s.outbox + [OutboxRow(s.nextId, tenant, s.clock, Malformed)],
       visible := s.visible + {|s.outbox|},
       clock := s.clock + 1, nextId := s.nextId + 1)
  }

  // ---- the relay ----

  predicate Unpublished(outbox: seq<OutboxRow>, visible: set<nat>, published: map<nat, Time>, k: nat) {
    k in visible && k < |outbox| && k !in published
  }

  /** A possible answer of the fetch query: unpublished rows by created_at, at most `limit`, oldest first. */
  ghost predicate IsFetch(rows: seq<nat>, limit: nat, outbox: seq<OutboxRow>, visible: set<nat>,
                          published: map<nat, Time>) {
    && |rows| <= limit
    && (forall x :: 0 <= x < |rows| ==> Unpublished(outbox, visible, published, rows[x]))
    && (forall x, y :: 0 <= x < y < |rows| ==>
          rows[x] != rows[y] && outbox[rows[x]].createdAt <= outbox[rows[y]].createdAt)
    && (forall k: nat :: Unpublished(outbox, visible, published, k) && k !in rows ==>
          |rows| == limit && forall x :: 0 <= x < |rows| ==> outbox[rows[x]].createdAt <= outbox[k].createdAt)
  }

  /** n copies of one envelope. */
  function Repeat(e: Envelope, n: nat): seq<Envelope> {
    if n == 0 then [] else Repeat(e, n - 1) + [e]
  }

  function DoPublish(s: Sys, ok: bool, copies: nat): Sys
    requires s.batch != [] && s.batch[0] < |s.outbox| && s.outbox[s.batch[0]].body.WellFormed?
  {
    s.(bus := s.bus + Repeat(s.outbox[s.batch[0]].body.env, copies),
       calls := s.calls + multiset{s.batch[0]},
       marking := if ok then Some(s.batch[0]) else None,
       batch := if ok then s.batch[1..] else [])
  }

  function DoMark(s: Sys, ok: bool): Sys
    requires s.marking.Some?
  {
    var k := s.marking.value;
    s.(published := if ok then s.published[k := s.clock] else s.published,
       badMarks := if ok then s.badMarks else s.badMarks + multiset{k},
       marking := None, clock := s.clock + 1)
  }

  /** The process stops and starts: the batch is forgotten, a pending mark is lost. */
  function DoRestart(s: Sys): Sys {
    s.(batch := [], marking := None,
       badMarks := if s.marking.Some? then s.badMarks + multiset{s.marking.value} else s.badMarks)
  }

  // ---- steps and runs ----

  /** Everything written; for Create, no clash on the external id either. */
  ghost predicate CanCommit(s: Sys, i: Uuid) {
    && i in s.open && s.open[i].audit.Some? && s.open[i].todo == [] && StagedOk(s.outbox, s.open[i])
    && (s.open[i].plan.None? ==> UniqueExternal(s.incidents, s.open[i].row))
  }

  ghost predicate Enabled(s: Sys, a: Action) {
    match a
    case Tick(_, _) => true
    case Deny(_, _, _, _, _) => true
    case OpenCreate(c) => ValidCreate(c.input)
    case ReadPrior(p) => Writes(s, p)
    case Lock(tx) => tx in s.planned && tx.id in s.incidents && tx.id !in s.open
    case Record(i) => i in s.open && s.open[i].audit.None?
    case Enqueue(i) =>
      && i in s.open && s.open[i].audit.Some? && s.open[i].todo != []
      && forall k :: 0 <= k < |s.outbox| ==> s.outbox[k].eventId != RowFor(s, s.open[i]).eventId
    case Commit(i) => CanCommit(s, i)
    case Abort(i) => i in s.open
    case Forget(tx) => tx in s.planned
    case InsertMalformed(_) => true
    case Fetch(rows) =>
      s.batch == [] && s.marking.None? && IsFetch(rows, BATCH, s.outbox, s.visible, s.published)
    case Skip =>
      && s.marking.None? && s.batch != [] && s.batch[0] < |s.outbox|
      && s.outbox[s.batch[0]].body.Malformed?
    case Publish(ok, copies) =>
      && s.marking.None? && s.batch != [] && s.batch[0] < |s.outbox|
      && s.outbox[s.batch[0]].body.WellFormed?
      && copies <= 2 && (ok ==> copies >= 1)
    case Mark(_) => s.marking.Some?
    case Restart => true
  }

  ghost function Apply(s: Sys, a: Action): Sys
    requires Enabled(s, a)
  {
    match a
    case Tick(dt, di) => s.(clock := s.clock + dt, nextId := s.nextId + di)
    case Deny(_, _, _, _, _) => DoDeny(s, a)
    case OpenCreate(c) => DoOpenCreate(s, c)
    case ReadPrior(p) => DoReadPrior(s, p)
    case Lock(tx) => DoLock(s, tx)
    case Record(i) => DoRecord(s, i)
    case Enqueue(i) => DoEnqueue(s, i)
    case Commit(i) => DoCommit(s, i)
    case Abort(i) => s.(open := s.open - {i})
    case Forget(tx) => s.(planned := s.planned - {tx})
    case InsertMalformed(tenant) => DoInsertMalformed(s, tenant)
    case Fetch(rows) => s.(batch := rows)
    case Skip => s.(batch := s.batch[1..])
    case Publish(ok, copies) => DoPublish(s, ok, copies)
    case Mark(ok) => DoMark(s, ok)
    case Restart => DoRestart(s)
  }

  lemma {:induction false} CommitStep(s: Sys, i: Uuid)
    requires CanCommit(s, i)
    ensures Enabled(s, Commit(i)) && Apply(s, Commit(i)) == DoCommit(s, i)
  {
    hide UniqueExternal, StagedOk, DoCommit;
  }

  /** The state a list of actions leads to, or None when one of them is not enabled. */
  ghost function Exec(s: Sys, acts: seq<Action>): Option<Sys> {
    if acts == [] then
      Some(s)
    else
      var n := |acts| - 1;
      match Exec(s, acts[..n])
      case None => None
      case Some(t) => if Enabled(t, acts[n]) then Some(Apply(t, acts[n])) else None
  }

  lemma {:induction false} ExecSnoc(s: Sys, acts: seq<Action>, a: Action)
    requires Exec(s, acts).Some? && Enabled(Exec(s, acts).value, a)
    ensures Exec(s, acts + [a]) == Some(Apply(Exec(s, acts).value, a))
  {
    assert (acts + [a])[..|acts|] == acts;
  }

  lemma {:induction false} ExecConcat(s: Sys, a: seq<Action>, b: seq<Action>)
    requires Exec(s, a).Some?
    ensures Exec(s, a + b) == Exec(Exec(s, a).value, b)
  {
    if b == [] {
      assert a + b == a;
    } else {
      var n := |b| - 1;
      ExecConcat(s, a, b[..n]);
      assert (a + b)[..|a + b| - 1] == a + b[..n];
    }
  }

  /** Every prefix of a run is a run. */
  lemma {:induction false} ExecPrefix(s: Sys, acts: seq<Action>, n: nat)
    requires Exec(s, acts).Some? && n <= |acts|
    ensures Exec(s, acts[..n]).Some?
  {
    if n < |acts| {
      ExecPrefix(s, acts[..|acts| - 1], n);
      assert acts[..|acts| - 1][..n] == acts[..n];
    } else {
      assert acts[..n] == acts;
    }
  }
}
